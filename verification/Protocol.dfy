/**
  What a provider requires of a request's order: an answer that asks for calls is followed at once by one
  receipt a call, in call order (src/runtime/executor.cpp). `InOrder` says it by position; `Owed` reads the
  list once, keeping the calls still to be answered. The lemmas about `Round` say what one round of the tool
  loop does to it.
*/
module Protocol {
  import opened Sequences
  import opened Wrappers
  import opened Utf8
  import opened Messages
  import opened GraphSpec
  import opened GraphRuns
  import opened Conversations
  import opened Requests
  import GraphStore

  // ---------------------------------------------------------------- by position

  /** A receipt carries the call's id, or that id made valid text. */
  predicate Answers(p: Payload, call: ToolCall) { p.Receipt? && (p.callId == call.id || p.callId == Sanitized(call.id)) }

  function CallsOf(e: Entry): seq<ToolCall> { if e.payload.Assistant? then e.payload.calls else [] }

  /** As far as the list goes, the receipts of the answer at `i` follow it in call order. */
  predicate Followed(list: seq<Entry>, i: nat)
    requires i < |list|
  {
    forall r | i < r < |list| && r - i <= |CallsOf(list[i])| :: Answers(list[r].payload, CallsOf(list[i])[r - i - 1])
  }

  predicate Finished(list: seq<Entry>, i: nat)
    requires i < |list|
  {
    i + |CallsOf(list[i])| < |list|
  }

  /** A receipt is one of those that follow an answer. */
  predicate Placed(list: seq<Entry>, r: nat)
    requires r < |list|
  {
    list[r].payload.Receipt? ==> exists i | 0 <= i < r :: r - i <= |CallsOf(list[i])|
  }

  predicate SoFar(list: seq<Entry>) { forall i | 0 <= i < |list| :: Followed(list, i) && Placed(list, i) }

  /** Every answer is followed by exactly its receipts, in call order. */
  predicate InOrder(list: seq<Entry>) { SoFar(list) && forall i | 0 <= i < |list| :: Finished(list, i) }

  // ---------------------------------------------------------------- by reading it once

  function Next(owed: seq<ToolCall>, p: Payload): Option<seq<ToolCall>> {
    match p
    case Assistant(_, _, calls) => if owed == [] then Some(calls) else None
    case Receipt(_, _, _, _) => if owed != [] && Answers(p, owed[0]) then Some(owed[1..]) else None
    case _ => if owed == [] then Some([]) else None
  }

  /** The calls the list still has to answer, or none when it is out of order already. */
  function Owed(list: seq<Entry>): Option<seq<ToolCall>> {
    if list == [] then Some([])
    else match Owed(list[..|list| - 1])
      case None => None
      case Some(owed) => Next(owed, list[|list| - 1].payload)
  }

  predicate Orderly(list: seq<Entry>) { Owed(list) == Some([]) }

  lemma OwedSnoc(list: seq<Entry>, e: Entry)
    ensures Owed(list + [e]) == match Owed(list) { case None => None case Some(owed) => Next(owed, e.payload) }
  {
    assert (list + [e])[..|list|] == list;
  }

  /** The one answer still owing: its last calls are those owed, and every other is finished. */
  ghost predicate Owing(list: seq<Entry>, owed: seq<ToolCall>, i: nat) {
    && i < |list| && |list| - 1 - i + |owed| == |CallsOf(list[i])|
    && owed == CallsOf(list[i])[|list| - 1 - i..]
    && forall k | 0 <= k < |list| && k != i :: Finished(list, k)
  }

  ghost predicate Told(list: seq<Entry>, owed: seq<ToolCall>) {
    && SoFar(list)
    && (if owed == [] then forall i | 0 <= i < |list| :: Finished(list, i)
        else exists i: nat :: Owing(list, owed, i))
  }

  lemma FollowedFront(front: seq<Entry>, e: Entry, i: nat)
    requires i < |front|
    ensures Followed(front + [e], i)
      == (Followed(front, i) && (|front| - i <= |CallsOf(front[i])| ==> Answers(e.payload, CallsOf(front[i])[|front| - i - 1])))
    ensures Placed(front + [e], i) <==> Placed(front, i)
  {
    var list := front + [e];
    if Followed(list, i) {
      forall r | i < r < |front| && r - i <= |CallsOf(front[i])| ensures Answers(front[r].payload, CallsOf(front[i])[r - i - 1]) {
        assert list[r] == front[r];
      }
      if |front| - i <= |CallsOf(front[i])| { assert list[|front|] == e; }
    }
    if Placed(list, i) && front[i].payload.Receipt? {
      var k :| 0 <= k < i && i - k <= |CallsOf(list[k])|;
      assert list[k] == front[k];
    }
    if Placed(front, i) && front[i].payload.Receipt? {
      var k :| 0 <= k < i && i - k <= |CallsOf(front[k])|;
      assert list[k] == front[k];
    }
  }

  lemma SoFarFront(front: seq<Entry>, e: Entry)
    requires SoFar(front + [e])
    ensures SoFar(front)
  {
    hide Followed, Placed;
    forall i | 0 <= i < |front| ensures Followed(front, i) && Placed(front, i) { FollowedFront(front, e, i); }
  }

  lemma NoneOwedStep(front: seq<Entry>, e: Entry)
    requires Told(front, []) && !e.payload.Receipt?
    ensures Told(front + [e], CallsOf(e))
  {
    var list := front + [e];
    forall i | 0 <= i < |list| ensures Followed(list, i) && Placed(list, i) {
      if i < |front| {
        assert Finished(front, i);
        FollowedFront(front, e, i);
      }
    }
    forall i | 0 <= i < |front| ensures Finished(list, i) { assert Finished(front, i); }
    if CallsOf(e) != [] { assert Owing(list, CallsOf(e), |front|); }
  }

  lemma ReceiptStep(front: seq<Entry>, e: Entry, owed: seq<ToolCall>)
    requires owed != [] && Told(front, owed) && Answers(e.payload, owed[0])
    ensures Told(front + [e], owed[1..])
  {
    var list := front + [e];
    var i: nat :| Owing(front, owed, i);
    forall k | 0 <= k < |list| ensures Followed(list, k) && Placed(list, k) {
      if k < |front| {
        if k != i { assert Finished(front, k); }
        FollowedFront(front, e, k);
      } else {
        assert list[i] == front[i] && k - i <= |CallsOf(list[i])|;
      }
    }
    forall k | 0 <= k < |front| && k != i ensures Finished(list, k) { assert Finished(front, k); }
    if owed[1..] == [] { assert Finished(list, i); } else { assert Owing(list, owed[1..], i); }
  }

  lemma {:induction false} OwedTells(list: seq<Entry>)
    ensures Owed(list).Some? ==> Told(list, Owed(list).value)
  {
    if list != [] {
      var (front, e) := (list[..|list| - 1], list[|list| - 1]);
      assert list == front + [e];
      OwedTells(front);
      hide Told, Answers;
      if Owed(list).Some? {
        if e.payload.Receipt? { ReceiptStep(front, e, Owed(front).value); } else { NoneOwedStep(front, e); }
      }
    }
  }

  /** In order so far, what comes next is a receipt exactly when one is owed, and then the right one. */
  lemma SoFarStep(front: seq<Entry>, e: Entry, owed: seq<ToolCall>)
    requires Told(front, owed) && SoFar(front + [e])
    ensures Next(owed, e.payload).Some?
  {
    var list := front + [e];
    if owed == [] {
      assert Placed(list, |front|);
      forall i | 0 <= i < |front| ensures |front| - i > |CallsOf(list[i])| { assert Finished(front, i); }
    } else {
      var i: nat :| Owing(front, owed, i);
      assert Followed(list, i);
      FollowedFront(front, e, i);
      assert CallsOf(front[i])[|front| - i - 1] == owed[0];
    }
  }

  lemma {:induction false} SoFarIsRead(list: seq<Entry>)
    requires SoFar(list)
    ensures Owed(list).Some?
  {
    if list != [] {
      var (front, e) := (list[..|list| - 1], list[|list| - 1]);
      assert list == front + [e];
      SoFarFront(front, e);
      SoFarIsRead(front);
      OwedTells(front);
      SoFarStep(front, e, Owed(front).value);
    }
  }

  /** Reading the list once decides the order by position. */
  lemma OrderlyMeetsOrder(list: seq<Entry>)
    ensures Orderly(list) <==> InOrder(list)
  {
    OwedTells(list);
    if InOrder(list) {
      SoFarIsRead(list);
      var owed := Owed(list).value;
      forall i: nat | i < |list| && owed != [] ensures !Owing(list, owed, i) { assert Finished(list, i); }
    }
  }

  // ---------------------------------------------------------------- receipts and notes keep what was read

  lemma {:induction false} CompleteKeepsIds(calls: seq<ToolCall>, callId: Text)
    ensures |CompleteCall(calls, callId)| == |calls|
    ensures forall k | 0 <= k < |calls| :: CompleteCall(calls, callId)[k].id == calls[k].id
  {
    if calls != [] && calls[0].id != callId {
      CompleteKeepsIds(calls[1..], callId);
    }
  }

  /** The same calls, whatever became of them. */
  predicate SameIds(a: seq<ToolCall>, b: seq<ToolCall>) {
    |a| == |b| && forall k | 0 <= k < |a| :: a[k].id == b[k].id
  }

  predicate SameOwed(a: Option<seq<ToolCall>>, b: Option<seq<ToolCall>>) {
    (a == None && b == None) || (a.Some? && b.Some? && SameIds(a.value, b.value))
  }

  lemma NextSame(a: Option<seq<ToolCall>>, b: Option<seq<ToolCall>>, p: Payload)
    requires SameOwed(a, b) && a.Some?
    ensures SameOwed(Next(a.value, p), Next(b.value, p))
  {}

  /** Completing a record changes nothing of the order. */
  lemma {:induction false} CompleteKeepsOwed(list: seq<Entry>, callId: Text)
    ensures SameOwed(Owed(CompleteEntries(list, callId)), Owed(list))
  {
    if list != [] {
      var (front, e) := (list[..|list| - 1], list[|list| - 1]);
      hide SameIds, CompleteCall;
      assert list == front + [e];
      CompleteSnoc(front, e, callId);
      OwedSnoc(front, e);
      if HasCall(e.payload, callId) {
        OwedSnoc(front, e.(payload := CompletePayload(e.payload, callId)));
        CompletedSame(e.payload, callId);
        if Owed(front).Some? { SameToItself(Owed(front).value); }
      } else {
        CompleteKeepsOwed(front, callId);
        OwedSnoc(CompleteEntries(front, callId), e);
        if Owed(front).Some? { NextSame(Owed(CompleteEntries(front, callId)), Owed(front), e.payload); }
      }
    }
  }

  lemma CompletedSame(p: Payload, callId: Text)
    requires p.Assistant?
    ensures SameIds(CompletePayload(p, callId).calls, p.calls)
  {
    CompleteKeepsIds(p.calls, callId);
  }

  lemma SameToItself(a: seq<ToolCall>)
    ensures SameIds(a, a)
  {}

  lemma PushStep(list: seq<Entry>, e: Entry)
    ensures Owed(list) == None ==> Owed(Push(list, e)) == None
    ensures Owed(list).Some? ==> exists owed :: SameIds(owed, Owed(list).value) && Owed(Push(list, e)) == Next(owed, e.payload)
  {
    hide CompleteEntries, SameIds;
    if e.payload.Receipt? && e.payload.callId != [] {
      CompleteKeepsOwed(list, e.payload.callId);
      OwedSnoc(CompleteEntries(list, e.payload.callId), e);
    } else {
      OwedSnoc(list, e);
      if Owed(list).Some? { SameToItself(Owed(list).value); }
    }
  }

  /** Receipts in call order are read one by one. */
  lemma {:induction false} ReceiptsRead(list: seq<Entry>, calls: seq<ToolCall>, receipts: seq<Entry>)
    requires Owed(list).Some? && SameIds(Owed(list).value, calls) && |receipts| <= |calls|
    requires forall k | 0 <= k < |receipts| :: Answers(receipts[k].payload, calls[k])
    ensures SameOwed(Owed(PushAll(list, receipts)), Some(calls[|receipts|..]))
    decreases |receipts|
  {
    if receipts != [] {
      var e := receipts[0];
      assert Answers(e.payload, calls[0]);
      PushStep(list, e);
      forall k | 0 <= k < |receipts[1..]| ensures Answers(receipts[1..][k].payload, calls[1..][k]) {
        assert Answers(receipts[k + 1].payload, calls[k + 1]);
      }
      hide Push, Answers;
      ReceiptsRead(Push(list, e), calls[1..], receipts[1..]);
      assert calls[1..][|receipts| - 1..] == calls[|receipts|..];
    }
  }

  lemma {:induction false} DisorderStays(list: seq<Entry>, es: seq<Entry>)
    requires Owed(list) == None
    ensures Owed(PushAll(list, es)) == None
    decreases |es|
  {
    if es != [] {
      PushStep(list, es[0]);
      hide Push;
      DisorderStays(Push(list, es[0]), es[1..]);
    }
  }

  // ---------------------------------------------------------------- the request

  /** A request as the provider reads it. */
  function AsRead(request: seq<ChatMessage>, parse: Text -> Option<Json>): seq<Entry> {
    seq(|request|, i requires 0 <= i < |request| => Entry(request[i].timestamp, ToPayload(request[i], parse)))
  }

  /** Of two payloads: the same kind, calls with the same ids, a receipt for the same call. */
  predicate Alike(p: Payload, q: Payload) {
    && (p.Assistant? <==> q.Assistant?) && (p.Receipt? <==> q.Receipt?)
    && (p.Assistant? ==> SameIds(p.calls, q.calls))
    && (p.Receipt? ==> p.callId == q.callId)
  }

  lemma NextAlike(a: Option<seq<ToolCall>>, b: Option<seq<ToolCall>>, p: Payload, q: Payload)
    requires SameOwed(a, b) && a.Some? && Alike(p, q)
    ensures SameOwed(Next(a.value, p), Next(b.value, q))
  {}

  lemma ShownAlike(chain: seq<Node>, receiptFor: (Text, Text) -> Text, request: seq<ChatMessage>, n: nat, i: nat, parse: Text -> Option<Json>)
    requires i < |chain| && n + i < |request| && Shows(chain, receiptFor, request, n, i)
    ensures Alike(AsRead(request, parse)[n + i].payload, Entries(chain)[i].payload)
  {
    var m := RenderMessage(chain[i], n + 1 + i);
    RenderedReadsBack(chain[i], n + 1 + i, parse);
    RenderedReadsBack(chain[i].(payload := chain[i].payload.(content := request[n + i].content)), n + 1 + i, parse);
    hide Superseded, NamedBy;
    assert request[n + i] == m.(content := request[n + i].content);
  }

  /** Lists alike entry by entry owe the same, also after a beginning that owes nothing. */
  lemma {:induction false} ReadAlike(start: seq<Entry>, read: seq<Entry>, list: seq<Entry>)
    requires Owed(start) == Some([]) && |read| == |list|
    requires forall i | 0 <= i < |list| :: Alike(read[i].payload, list[i].payload)
    ensures SameOwed(Owed(start + read), Owed(list))
    decreases |list|
  {
    if list == [] {
      assert start + read == start;
    } else {
      var n := |list| - 1;
      var (front, e) := (read[..n], read[n]);
      assert front + [e] == read && list[..n] + [list[n]] == list;
      hide Alike, SameOwed, Owed;
      ReadAlike(start, front, list[..n]);
      SeqAssoc(start, front, [e]);
      ReadOn(start + front, list[..n], e, list[n]);
    }
  }

  lemma ReadOn(a: seq<Entry>, b: seq<Entry>, e: Entry, f: Entry)
    requires SameOwed(Owed(a), Owed(b)) && Alike(e.payload, f.payload)
    ensures SameOwed(Owed(a + [e]), Owed(b + [f]))
  {
    OwedSnoc(a, e);
    OwedSnoc(b, f);
    if Owed(a).Some? { NextAlike(Owed(a), Owed(b), e.payload, f.payload); }
  }

  lemma SystemRead(inputs: Inputs, request: seq<ChatMessage>, parse: Text -> Option<Json>)
    requires |request| >= |SystemMessages(inputs)| && request[..|SystemMessages(inputs)|] == SystemMessages(inputs)
    ensures Owed(AsRead(request, parse)[..|SystemMessages(inputs)|]) == Some([])
  {
    GraphStore.RolesDiffer();
    var n := |SystemMessages(inputs)|;
    if n == 1 {
      assert request[0] == SystemMessages(inputs)[0] by { assert request[..n][0] == request[0]; }
      OwedSnoc([], AsRead(request, parse)[0]);
      assert [] + [AsRead(request, parse)[0]] == AsRead(request, parse)[..1];
    }
  }

  /** The request is in order exactly when the conversation is, however its pages are shown. */
  lemma RequestKeepsOrder(inputs: Inputs, chain: seq<Node>, receiptFor: (Text, Text) -> Text,
                          request: seq<ChatMessage>, parse: Text -> Option<Json>)
    requires IsRequest(inputs, chain, receiptFor, request)
    ensures InOrder(AsRead(request, parse)) <==> InOrder(Entries(chain))
  {
    var (n, read, list) := (|SystemMessages(inputs)|, AsRead(request, parse), Entries(chain));
    OrderlyMeetsOrder(read);
    OrderlyMeetsOrder(list);
    SystemRead(inputs, request, parse);
    forall i | 0 <= i < |chain| ensures Alike(read[n..][i].payload, list[i].payload) {
      ShownAlike(chain, receiptFor, request, n, i, parse);
    }
    hide Alike, Owed, InOrder, IsRequest;
    ReadAlike(read[..n], read[n..], list);
    assert read[..n] + read[n..] == read;
  }

  // ---------------------------------------------------------------- a round of the tool loop

  /** The receipts of the calls that ran, a note the user left meanwhile, and the seal of a cancelled turn. */
  function Round(list: seq<Entry>, receipts: seq<Entry>, note: Option<Entry>, sealed: bool): seq<Entry> {
    var answered := PushAll(list, receipts);
    var noted := if note.Some? then Push(answered, note.value) else answered;
    if sealed then SealList(noted) else noted
  }

  predicate AllPending(calls: seq<ToolCall>) { forall k | 0 <= k < |calls| :: calls[k].status == Pending }

  /** What a round adds: receipts for the first calls asked, in their order; fewer than asked only when cancelled. */
  predicate IsRound(asked: Entry, receipts: seq<Entry>, note: Option<Entry>, sealed: bool) {
    && asked.payload.Assistant? && asked.payload.calls != [] && AllPending(asked.payload.calls)
    && |receipts| <= |asked.payload.calls|
    && (forall k | 0 <= k < |receipts| :: Answers(receipts[k].payload, asked.payload.calls[k]))
    && (note.Some? ==> note.value.payload.User?)
    && (|receipts| < |asked.payload.calls| ==> sealed)
  }

  /** Every call asked for ran, or none did and nothing was said. */
  predicate Clean(asked: Entry, receipts: seq<Entry>, note: Option<Entry>)
    requires asked.payload.Assistant?
  {
    |receipts| == |asked.payload.calls| || (receipts == [] && note == None)
  }

  lemma {:induction false} PushAllLast(list: seq<Entry>, es: seq<Entry>)
    requires es != []
    ensures PushAll(list, es) != [] && PushAll(list, es)[|PushAll(list, es)| - 1] == es[|es| - 1]
    decreases |es|
  {
    if |es| == 1 { assert PushAll(Push(list, es[0]), es[1..]) == Push(list, es[0]); }
    else { PushAllLast(Push(list, es[0]), es[1..]); }
  }

  lemma {:induction false} AllUnrun(calls: seq<ToolCall>)
    requires AllPending(calls)
    ensures Unrun(calls) == SealCalls(calls) && SameIds(SealCalls(calls), calls) && !HasPending(SealCalls(calls))
  {
    if calls != [] {
      AllUnrun(calls[1..]);
      assert SealCalls(calls)[1..] == SealCalls(calls[1..]);
    }
  }

  function SealedEntry(asked: Entry): Entry
    requires asked.payload.Assistant?
  {
    asked.(payload := asked.payload.(calls := SealCalls(asked.payload.calls)))
  }

  /** A round in which nothing ran is sealed: the answer, its calls interrupted, and a receipt for each. */
  lemma SealUnrun(list: seq<Entry>, asked: Entry)
    requires asked.payload.Assistant? && asked.payload.calls != [] && AllPending(asked.payload.calls)
    ensures SealList(list + [asked]) == PushAll(list + [SealedEntry(asked)], Receipts(SealCalls(asked.payload.calls)))
    ensures SealList(list + [asked]) == list + [SealedEntry(asked)] + Receipts(SealCalls(asked.payload.calls))
  {
    var (calls, last) := (asked.payload.calls, SealedEntry(asked));
    AllUnrun(calls);
    assert (list + [asked])[..|list|] == list;
    assert asked.payload.calls[0].status == Pending;
    forall k | 0 <= k < |SealCalls(calls)| ensures HasCall(last.payload, SealCalls(calls)[k].id) {}
    PushReceipts(list, last, [], SealCalls(calls));
    assert list + [last] + [] == list + [last];
  }

  /** A message that is no receipt keeps the order only where nothing is owed. */
  lemma PushOther(list: seq<Entry>, e: Entry)
    requires !e.payload.Receipt?
    ensures Push(list, e) == list + [e]
    ensures Owed(Push(list, e)) == if Orderly(list) then Some(CallsOf(e)) else None
  {
    OwedSnoc(list, e);
  }

  lemma SealStays(list: seq<Entry>, last: Entry)
    requires list != [] && list[|list| - 1] == last && !last.payload.Assistant?
    ensures SealList(list) == list
  {}

  /** Sealing an answer none of whose calls ran puts its receipts after it. */
  lemma SealedOrder(list: seq<Entry>, asked: Entry)
    requires asked.payload.Assistant? && asked.payload.calls != [] && AllPending(asked.payload.calls)
    ensures Orderly(SealList(list + [asked])) <==> Orderly(list)
  {
    var (calls, last) := (asked.payload.calls, SealedEntry(asked));
    var sealed := SealCalls(calls);
    SealUnrun(list, asked);
    PushOther(list, last);
    hide SealList, Push, PushAll;
    if Orderly(list) {
      forall k | 0 <= k < |sealed| ensures Answers(Receipts(sealed)[k].payload, sealed[k]) {}
      SameToItself(sealed);
      ReceiptsRead(list + [last], sealed, Receipts(sealed));
    } else {
      DisorderStays(list + [last], Receipts(sealed));
    }
  }

  /**
    A round leaves the conversation in order exactly when it was in order before and every call asked for
    ran, or none ran and no note came between.
  */
  lemma RoundKeepsOrder(list: seq<Entry>, asked: Entry, receipts: seq<Entry>, note: Option<Entry>, sealed: bool)
    requires IsRound(asked, receipts, note, sealed)
    ensures Orderly(Round(list + [asked], receipts, note, sealed)) <==> Orderly(list) && Clean(asked, receipts, note)
  {
    var calls := asked.payload.calls;
    if receipts == [] && note == None {
      SealedOrder(list, asked);
    } else {
      var answered := PushAll(list + [asked], receipts);
      PushOther(list, asked);
      hide SealList, Push, PushAll, Answers;
      if Orderly(list) {
        SameToItself(calls);
        ReceiptsRead(list + [asked], calls, receipts);
      } else {
        DisorderStays(list + [asked], receipts);
      }
      RoundEnds(list, asked, receipts, note, sealed);
      if note.Some? { PushOther(answered, note.value); }
    }
  }

  /** Once a receipt or a note is last there is nothing to seal. */
  lemma RoundEnds(list: seq<Entry>, asked: Entry, receipts: seq<Entry>, note: Option<Entry>, sealed: bool)
    requires IsRound(asked, receipts, note, sealed) && (receipts != [] || note.Some?)
    ensures Round(list + [asked], receipts, note, sealed) == Round(list + [asked], receipts, note, false)
  {
    var answered := PushAll(list + [asked], receipts);
    if note.Some? {
      SealStays(Push(answered, note.value), note.value);
    } else {
      PushAllLast(list + [asked], receipts);
      assert Answers(receipts[|receipts| - 1].payload, asked.payload.calls[|receipts| - 1]);
      SealStays(answered, receipts[|receipts| - 1]);
    }
  }

  /** The last message asks for no call that is still pending: there is nothing to seal. */
  predicate Calm(list: seq<Entry>) { list != [] ==> !Unfinished(list[|list| - 1].payload) }

  lemma OrderlyIsCalm(list: seq<Entry>)
    requires Orderly(list)
    ensures Calm(list)
  {}

  lemma CalmNeedsNoSeal(list: seq<Entry>)
    requires Calm(list)
    ensures SealList(list) == list
  {}

  /** However a round went, its last message is not the answer that asked. */
  lemma RoundIsCalm(list: seq<Entry>, asked: Entry, receipts: seq<Entry>, note: Option<Entry>, sealed: bool)
    requires IsRound(asked, receipts, note, sealed)
    ensures Calm(Round(list + [asked], receipts, note, sealed))
  {
    if receipts == [] && note == None {
      SealUnrun(list, asked);
      AllUnrun(asked.payload.calls);
      hide SealList, PushAll;
      var tail := Receipts(SealCalls(asked.payload.calls));
      assert tail != [] && tail[|tail| - 1].payload.Receipt?;
    } else {
      RoundEnds(list, asked, receipts, note, sealed);
      if note == None {
        PushAllLast(list + [asked], receipts);
        assert Answers(receipts[|receipts| - 1].payload, asked.payload.calls[|receipts| - 1]);
      }
      hide PushAll, SealList;
    }
  }

  // ---------------------------------------------------------------- records

  predicate NonePending(list: seq<Entry>) { forall i | 0 <= i < |list| :: !HasPending(CallsOf(list[i])) }

  predicate DistinctIds(calls: seq<ToolCall>) { forall i, j | 0 <= i < j < |calls| :: calls[i].id != calls[j].id }

  predicate First(calls: seq<ToolCall>, j: nat)
    requires j < |calls|
  {
    forall i | 0 <= i < j :: calls[i].id != calls[j].id
  }

  lemma FirstOfRest(calls: seq<ToolCall>, j: nat)
    requires 0 < j < |calls|
    ensures First(calls, j) <==> calls[0].id != calls[j].id && First(calls[1..], j - 1)
  {
    var rest := calls[1..];
    if First(calls, j) {
      forall i | 0 <= i < j - 1 ensures rest[i].id != rest[j - 1].id { assert calls[i + 1].id != calls[j].id; }
    }
    if calls[0].id != calls[j].id && First(rest, j - 1) {
      forall i | 0 <= i < j ensures calls[i].id != calls[j].id { if i > 0 { assert rest[i - 1].id != rest[j - 1].id; } }
    }
  }

  /** Completing by id touches the first record of that id and no other. */
  lemma {:induction false} CompleteTouchesFirst(calls: seq<ToolCall>, callId: Text, j: nat)
    requires j < |calls|
    ensures |CompleteCall(calls, callId)| == |calls|
    ensures CompleteCall(calls, callId)[j] ==
      if calls[j].id == callId && First(calls, j) && calls[j].status == Pending then calls[j].(status := Completed) else calls[j]
  {
    if calls[0].id != callId {
      CompleteKeepsIds(calls[1..], callId);
      if j > 0 {
        CompleteTouchesFirst(calls[1..], callId, j - 1);
        FirstOfRest(calls, j);
        hide First;
      }
    }
  }

  lemma {:induction false} CompleteKeepsLength(list: seq<Entry>, callId: Text)
    ensures |CompleteEntries(list, callId)| == |list|
  {
    if list != [] { CompleteKeepsLength(list[..|list| - 1], callId); }
  }

  /**
    A receipt carries its call's id made valid text, a record carries it as it came: the receipt for call `k` of
    the answer before it completes that record exactly when the id is valid text and no earlier call has it.
  */
  lemma AnswerCompletesIffValid(list: seq<Entry>, asked: Entry, k: nat, content: Text, parse: Text -> Option<Json>)
    requires asked.payload.Assistant? && k < |asked.payload.calls|
    requires asked.payload.calls[k].id != [] && asked.payload.calls[k].status == Pending
    ensures var (calls, after) := (asked.payload.calls, Push(list + [asked], Incoming(Answer(asked.payload.calls[k].id, content), parse)));
      && |after| == |list| + 2 && after[|list|].payload.Assistant? && |after[|list|].payload.calls| == |calls|
      && (after[|list|].payload.calls[k].status == Completed <==> Valid(calls[k].id) && First(calls, k))
  {
    var (calls, call) := (asked.payload.calls, asked.payload.calls[k]);
    var id := Sanitized(call.id);
    SanitizedIsIdentity(call.id);
    ReceiptOfAnswer(call.id, content, parse);
    hide Sanitized, Valid, First, Incoming;
    CompleteSnoc(list, asked, id);
    CompleteKeepsLength(list, id);
    CompleteTouchesFirst(calls, id, k);
    if id == call.id { assert HasCall(asked.payload, id); }
  }

  lemma ReceiptOfAnswer(callId: Text, content: Text, parse: Text -> Option<Json>)
    requires callId != []
    ensures var p := Incoming(Answer(callId, content), parse).payload; p.Receipt? && p.callId == Sanitized(callId) != []
  {
    GraphStore.RolesDiffer();
  }

  function CompleteAll(calls: seq<ToolCall>, ids: seq<Text>): seq<ToolCall>
    decreases |ids|
  {
    if ids == [] then calls else CompleteAll(CompleteCall(calls, ids[0]), ids[1..])
  }

  lemma {:induction false} CompleteAllAt(calls: seq<ToolCall>, ids: seq<Text>, j: nat)
    requires j < |calls|
    ensures |CompleteAll(calls, ids)| == |calls| && CompleteAll(calls, ids)[j].id == calls[j].id
    ensures CompleteAll(calls, ids)[j].status ==
      if calls[j].status == Pending && First(calls, j) && calls[j].id in ids then Completed else calls[j].status
    decreases |ids|
  {
    if ids != [] {
      var once := CompleteCall(calls, ids[0]);
      CompleteTouchesFirst(calls, ids[0], j);
      CompleteKeepsIds(calls, ids[0]);
      CompleteAllAt(once, ids[1..], j);
      assert First(once, j) <==> First(calls, j);
    }
  }

  function IdsOf(calls: seq<ToolCall>): seq<Text> {
    seq(|calls|, i requires 0 <= i < |calls| => calls[i].id)
  }

  /** Completing the first `r` calls by id leaves none pending exactly when that is all of them, no id twice. */
  lemma CompletedCalls(calls: seq<ToolCall>, r: nat)
    requires AllPending(calls) && calls != [] && r <= |calls|
    ensures !HasPending(CompleteAll(calls, IdsOf(calls)[..r])) <==> r == |calls| && DistinctIds(calls)
  {
    var ids := IdsOf(calls)[..r];
    var done := CompleteAll(calls, ids);
    forall j | 0 <= j < |calls| ensures |done| == |calls| && (done[j].status == Pending <==> !First(calls, j) || calls[j].id !in ids) {
      CompleteAllAt(calls, ids, j);
    }
    if r < |calls| {
      if calls[r].id in ids {
        var i :| 0 <= i < r && ids[i] == calls[r].id;
        assert !First(calls, r);
      }
      assert done[r].status == Pending;
    } else {
      assert forall j | 0 <= j < |calls| :: ids[j] == calls[j].id;
      if !HasPending(done) {
        forall i, j | 0 <= i < j < |calls| ensures calls[i].id != calls[j].id { assert done[j].status != Pending; }
      }
    }
  }

  /** The walk for a receipt passes the receipts before it and stops at the answer that asked. */
  lemma {:induction false} CompleteThrough(list: seq<Entry>, asked: Entry, receipts: seq<Entry>, callId: Text)
    requires HasCall(asked.payload, callId) && forall k | 0 <= k < |receipts| :: receipts[k].payload.Receipt?
    ensures CompleteEntries(list + [asked] + receipts, callId)
      == list + [asked.(payload := CompletePayload(asked.payload, callId))] + receipts
    decreases |receipts|
  {
    var done := asked.(payload := CompletePayload(asked.payload, callId));
    if receipts == [] {
      assert list + [asked] + receipts == list + [asked] && list + [done] + receipts == list + [done];
      CompleteSnoc(list, asked, callId);
    } else {
      var (front, e) := (receipts[..|receipts| - 1], receipts[|receipts| - 1]);
      assert front + [e] == receipts;
      SeqAssoc(list + [asked], front, [e]);
      SeqAssoc(list + [done], front, [e]);
      CompleteThrough(list, asked, front, callId);
      hide CompleteEntries, CompletePayload;
      CompleteSnoc(list + [asked] + front, e, callId);
    }
  }

  function WithCalls(asked: Entry, calls: seq<ToolCall>): Entry
    requires asked.payload.Assistant?
  {
    asked.(payload := asked.payload.(calls := calls))
  }

  /** The receipts complete, one by one, the records of the answer that asked. */
  lemma {:induction false} ReceiptsComplete(list: seq<Entry>, asked: Entry, done: seq<Entry>, receipts: seq<Entry>)
    requires asked.payload.Assistant?
    requires forall k | 0 <= k < |done| :: done[k].payload.Receipt?
    requires forall k | 0 <= k < |receipts| ::
      receipts[k].payload.Receipt? && receipts[k].payload.callId != [] && HasCall(asked.payload, receipts[k].payload.callId)
    ensures PushAll(list + [asked] + done, receipts)
      == list + [WithCalls(asked, CompleteAll(asked.payload.calls, Carried(receipts)))] + (done + receipts)
    decreases |receipts|
  {
    if receipts == [] {
      assert done + receipts == done;
      assert WithCalls(asked, asked.payload.calls) == asked;
    } else {
      var (e, rest) := (receipts[0], receipts[1..]);
      var id := e.payload.callId;
      var once := WithCalls(asked, CompleteCall(asked.payload.calls, id));
      CompleteThrough(list, asked, done, id);
      assert Carried(receipts)[0] == id && Carried(receipts)[1..] == Carried(rest);
      forall k | 0 <= k < |rest| ensures HasCall(once.payload, rest[k].payload.callId) {
        assert HasCall(asked.payload, receipts[k + 1].payload.callId);
        CompleteKeepsCall(asked.payload, id, rest[k].payload.callId);
      }
      SeqAssoc(list + [once], done, [e]);
      hide CompleteEntries, HasCall, CompleteCall;
      ReceiptsComplete(list, once, done + [e], rest);
      assert done + [e] + rest == done + receipts by { SeqAssoc(done, [e], rest); assert [e] + rest == receipts; }
    }
  }

  lemma CompleteKeepsCall(p: Payload, id: Text, other: Text)
    requires HasCall(p, other)
    ensures HasCall(CompletePayload(p, id), other)
  {
    CompleteKeepsIds(p.calls, id);
    var k :| 0 <= k < |p.calls| && p.calls[k].id == other;
    assert CompletePayload(p, id).calls[k].id == other;
  }

  function Carried(receipts: seq<Entry>): seq<Text>
    requires forall k | 0 <= k < |receipts| :: receipts[k].payload.Receipt?
  {
    seq(|receipts|, i requires 0 <= i < |receipts| => receipts[i].payload.callId)
  }

  lemma NonePendingParts(list: seq<Entry>, asked: Entry, tail: seq<Entry>)
    requires forall k | 0 <= k < |tail| :: !tail[k].payload.Assistant?
    ensures NonePending(list + [asked] + tail) <==> NonePending(list) && !HasPending(CallsOf(asked))
  {
    var all := list + [asked] + tail;
    assert all[|list|] == asked;
    if NonePending(all) {
      forall i | 0 <= i < |list| ensures !HasPending(CallsOf(list[i])) { assert all[i] == list[i]; }
    }
    if NonePending(list) && !HasPending(CallsOf(asked)) {
      forall i | 0 <= i < |all| ensures !HasPending(CallsOf(all[i])) {
        if i < |list| { assert all[i] == list[i]; } else if i > |list| { assert all[i] == tail[i - |list| - 1]; }
      }
    }
  }

  /**
    Where each receipt carries its call's id, a round leaves no record pending exactly when none was before,
    and every call ran and no two shared an id, or none ran and no note came between.
  */
  lemma RoundSettles(list: seq<Entry>, asked: Entry, receipts: seq<Entry>, note: Option<Entry>, sealed: bool)
    requires IsRound(asked, receipts, note, sealed)
    requires forall k | 0 <= k < |receipts| :: receipts[k].payload.callId == asked.payload.calls[k].id != []
    ensures NonePending(Round(list + [asked], receipts, note, sealed)) <==>
      && NonePending(list)
      && ((|receipts| == |asked.payload.calls| && DistinctIds(asked.payload.calls)) || (receipts == [] && note == None))
  {
    var calls := asked.payload.calls;
    if receipts == [] && note == None {
      SealUnrun(list, asked);
      AllUnrun(calls);
      hide SealList, SealCalls, PushAll, Unrun;
      NonePendingParts(list, SealedEntry(asked), Receipts(SealCalls(calls)));
    } else {
      RoundEnds(list, asked, receipts, note, sealed);
      RoundCompletes(list, asked, receipts);
      var done := WithCalls(asked, CompleteAll(calls, IdsOf(calls)[..|receipts|]));
      CompletedCalls(calls, |receipts|);
      hide SealList, PushAll, CompleteAll, HasPending, DistinctIds, AllPending, IsRound;
      if note.Some? {
        SeqAssoc(list + [done], receipts, [note.value]);
        NonePendingParts(list, done, receipts + [note.value]);
      } else {
        NonePendingParts(list, done, receipts);
      }
    }
  }

  lemma RoundCompletes(list: seq<Entry>, asked: Entry, receipts: seq<Entry>)
    requires asked.payload.Assistant? && |receipts| <= |asked.payload.calls|
    requires forall k | 0 <= k < |receipts| :: Answers(receipts[k].payload, asked.payload.calls[k])
    requires forall k | 0 <= k < |receipts| :: receipts[k].payload.Receipt? && receipts[k].payload.callId == asked.payload.calls[k].id != []
    ensures PushAll(list + [asked], receipts)
      == list + [WithCalls(asked, CompleteAll(asked.payload.calls, IdsOf(asked.payload.calls)[..|receipts|]))] + receipts
    ensures forall k | 0 <= k < |receipts| :: receipts[k].payload.Receipt?
  {
    var calls := asked.payload.calls;
    forall k | 0 <= k < |receipts| ensures receipts[k].payload.Receipt? && HasCall(asked.payload, receipts[k].payload.callId) {
      assert Answers(receipts[k].payload, calls[k]);
    }
    ReceiptsComplete(list, asked, [], receipts);
    assert list + [asked] + [] == list + [asked] && [] + receipts == receipts;
    assert Carried(receipts) == IdsOf(calls)[..|receipts|];
  }
}
