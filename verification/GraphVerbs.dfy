/**
  What appending and sealing do to a conversation (include/pu/session/graph.hpp), entry by entry and record by record.
*/
module GraphVerbs {
  import opened Sequences
  import opened Wrappers
  import opened Utf8
  import opened Messages
  import opened GraphSpec
  import opened GraphRuns

  // ---------------------------------------------------------------- a receipt arrives

  predicate FirstWith(calls: seq<ToolCall>, callId: Text, k: int) {
    0 <= k < |calls| && calls[k].id == callId && forall m | 0 <= m < k :: calls[m].id != callId
  }

  predicate Makes(e: Entry, callId: Text) {
    e.payload.Assistant? && exists k | 0 <= k < |e.payload.calls| :: e.payload.calls[k].id == callId
  }

  /** Record `k` of entry `i` is the one a receipt for the call answers: the first of the last answer that made it. */
  predicate IsAnswered(list: seq<Entry>, callId: Text, i: int, k: int) {
    && 0 <= i < |list| && list[i].payload.Assistant? && FirstWith(list[i].payload.calls, callId, k)
    && forall j | i < j < |list| :: !Makes(list[j], callId)
  }

  /** The entry with at most its records' statuses otherwise. */
  predicate SameButStatus(was: Entry, now: Entry) {
    && now.timestamp == was.timestamp && (was.payload.Assistant? <==> now.payload.Assistant?)
    && (!was.payload.Assistant? ==> now == was)
    && (was.payload.Assistant? ==>
         && now.payload.content == was.payload.content && now.payload.reasoning == was.payload.reasoning
         && |now.payload.calls| == |was.payload.calls|
         && forall k | 0 <= k < |was.payload.calls| :: now.payload.calls[k] == was.payload.calls[k].(status := now.payload.calls[k].status))
  }

  lemma {:induction false} CompleteCallSays(calls: seq<ToolCall>, callId: Text, k: nat)
    requires k < |calls|
    ensures |CompleteCall(calls, callId)| == |calls|
    ensures CompleteCall(calls, callId)[k] ==
      if FirstWith(calls, callId, k) && calls[k].status == Pending then calls[k].(status := Completed) else calls[k]
  {
    if calls[0].id != callId && k > 0 {
      CompleteCallSays(calls[1..], callId, k - 1);
      assert FirstWith(calls, callId, k) <==> FirstWith(calls[1..], callId, k - 1) by {
        assert forall m | 0 < m < |calls| :: calls[m] == calls[1..][m - 1];
      }
    }
    CompleteCallLength(calls, callId);
  }

  lemma {:induction false} CompleteCallLength(calls: seq<ToolCall>, callId: Text)
    ensures |CompleteCall(calls, callId)| == |calls|
  {
    if calls != [] { CompleteCallLength(calls[1..], callId); }
  }

  lemma {:induction false} CompleteSays(list: seq<Entry>, callId: Text, i: nat)
    requires i < |list|
    ensures var after := CompleteEntries(list, callId);
      && |after| == |list| && SameButStatus(list[i], after[i])
      && (list[i].payload.Assistant? ==> forall k | 0 <= k < |list[i].payload.calls| ::
           after[i].payload.calls[k].status ==
             if IsAnswered(list, callId, i, k) && list[i].payload.calls[k].status == Pending then Completed
             else list[i].payload.calls[k].status)
  {
    var (before, last) := (list[..|list| - 1], list[|list| - 1]);
    CompleteLength(list, callId);
    if Makes(last, callId) {
      if i == |list| - 1 {
        CompleteCallLength(last.payload.calls, callId);
        forall k | 0 <= k < |last.payload.calls|
          ensures CompleteCall(last.payload.calls, callId)[k] ==
            if FirstWith(last.payload.calls, callId, k) && last.payload.calls[k].status == Pending
            then last.payload.calls[k].(status := Completed) else last.payload.calls[k]
        {
          CompleteCallSays(last.payload.calls, callId, k);
        }
      }
    } else if i < |list| - 1 {
      CompleteSays(before, callId, i);
      CompleteLength(before, callId);
      assert CompleteEntries(list, callId)[i] == CompleteEntries(before, callId)[i];
      forall k ensures IsAnswered(list, callId, i, k) <==> IsAnswered(before, callId, i, k) {
        hide FirstWith, Makes;
        assert list[i] == before[i] && forall j | i < j < |before| :: before[j] == list[j];
      }
    }
  }

  lemma {:induction false} CompleteLength(list: seq<Entry>, callId: Text)
    ensures |CompleteEntries(list, callId)| == |list|
  {
    if list != [] { CompleteLength(list[..|list| - 1], callId); }
  }

  /**
    An entry is appended behind the others. A receipt completes the one record it answers, if that is pending;
    no other entry and no other record changes.
  */
  lemma PushSays(list: seq<Entry>, e: Entry, i: nat)
    requires i < |list|
    ensures var after := Push(list, e);
      && |after| == |list| + 1 && after[|list|] == e && SameButStatus(list[i], after[i])
      && (!e.payload.Receipt? || e.payload.callId == [] ==> after[i] == list[i])
      && (e.payload.Receipt? && e.payload.callId != [] && list[i].payload.Assistant? ==>
           forall k | 0 <= k < |list[i].payload.calls| ::
             after[i].payload.calls[k].status ==
               if IsAnswered(list, e.payload.callId, i, k) && list[i].payload.calls[k].status == Pending then Completed
               else list[i].payload.calls[k].status)
  {
    hide CompleteEntries, IsAnswered;
    if e.payload.Receipt? { CompleteSays(list, e.payload.callId, i); }
  }

  // ---------------------------------------------------------------- a seal

  /** How many calls are pending. */
  function Waiting(calls: seq<ToolCall>): nat {
    if calls == [] then 0 else Waiting(calls[..|calls| - 1]) + if calls[|calls| - 1].status == Pending then 1 else 0
  }

  lemma UnrunOne(call: ToolCall)
    ensures Unrun([call]) == if call.status == Pending then [call.(status := Interrupted)] else []
  {
    assert [call][1..] == [];
  }

  lemma {:induction false} UnrunSnoc(calls: seq<ToolCall>, call: ToolCall)
    ensures Unrun(calls + [call]) == Unrun(calls) + if call.status == Pending then [call.(status := Interrupted)] else []
  {
    if calls == [] {
      assert calls + [call] == [call] && [call][1..] == [];
    } else {
      var (rest, all) := (calls[1..], calls + [call]);
      UnrunSnoc(rest, call);
      assert all[0] == calls[0] && all[1..] == rest + [call];
      SeqAssoc(Unrun([calls[0]]), Unrun(rest), Unrun([call]));
      UnrunOne(calls[0]);
      UnrunOne(call);
    }
  }

  lemma {:induction false} UnrunSays(calls: seq<ToolCall>)
    ensures |Unrun(calls)| == Waiting(calls)
    ensures forall k | 0 <= k < |calls| && calls[k].status == Pending ::
      Waiting(calls[..k]) < Waiting(calls) && Unrun(calls)[Waiting(calls[..k])] == calls[k].(status := Interrupted)
  {
    if calls != [] {
      var (front, last) := (calls[..|calls| - 1], calls[|calls| - 1]);
      UnrunSays(front);
      UnrunSnoc(front, last);
      assert calls == front + [last];
      forall k | 0 <= k < |calls| && calls[k].status == Pending
        ensures Waiting(calls[..k]) < Waiting(calls) && Unrun(calls)[Waiting(calls[..k])] == calls[k].(status := Interrupted)
      {
        hide Unrun;
        if k < |front| { assert front[..k] == calls[..k] && front[k] == calls[k]; }
      }
    }
  }

  /** A seal interrupts the pending calls of the last entry, adds as many receipts, and changes nothing else. */
  lemma SealSays(list: seq<Entry>, was: Entry)
    requires list != [] && was == list[|list| - 1] && was.payload.Assistant? && Waiting(was.payload.calls) > 0
    ensures var (n, after) := (|list|, SealList(list));
      && |after| == n + Waiting(was.payload.calls) && after[..n - 1] == list[..n - 1] && SameButStatus(was, after[n - 1])
      && forall k | 0 <= k < |was.payload.calls| :: after[n - 1].payload.calls[k].status ==
           if was.payload.calls[k].status == Pending then Interrupted else was.payload.calls[k].status
  {
    SealParts(list, was, was.(payload := was.payload.(calls := SealCalls(was.payload.calls))), Receipts(Unrun(was.payload.calls)));
    UnrunSays(was.payload.calls);
    hide Unrun, Waiting, SealList;
  }

  /** Each call that was pending is answered, in the calls' order, by a receipt that says it never ran. */
  lemma SealAnswers(list: seq<Entry>, was: Entry, k: nat)
    requires list != [] && was == list[|list| - 1] && was.payload.Assistant?
    requires k < |was.payload.calls| && was.payload.calls[k].status == Pending
    ensures var (i, after) := (|list| + Waiting(was.payload.calls[..k]), SealList(list));
      i < |after| && after[i] == Entry([], Receipt(was.payload.calls[k].id, was.payload.calls[k].name, CANCELLED_RECEIPT, None))
  {
    var calls := was.payload.calls;
    WaitingIsPending(calls);
    SealParts(list, was, was.(payload := was.payload.(calls := SealCalls(calls))), Receipts(Unrun(calls)));
    UnrunSays(calls);
    hide Unrun, Waiting, SealList, CANCELLED_RECEIPT, SealCalls;
    assert SealList(list)[|list| + Waiting(calls[..k])] == Receipts(Unrun(calls))[Waiting(calls[..k])];
  }

  lemma SealParts(list: seq<Entry>, was: Entry, sealed: Entry, receipts: seq<Entry>)
    requires list != [] && was == list[|list| - 1] && was.payload.Assistant? && Waiting(was.payload.calls) > 0
    requires sealed == was.(payload := was.payload.(calls := SealCalls(was.payload.calls)))
    requires receipts == Receipts(Unrun(was.payload.calls))
    ensures |SealList(list)| == |list| + |receipts|
    ensures SealList(list)[..|list| - 1] == list[..|list| - 1] && SealList(list)[|list| - 1] == sealed
    ensures forall j | 0 <= j < |receipts| :: SealList(list)[|list| + j] == receipts[j]
  {
    hide Unrun, Waiting, HasPending, Receipts, SealCalls, SealList;
    WaitingIsPending(was.payload.calls);
    SealUnfolds(list, was, sealed, receipts);
    JoinParts(SealList(list), list[..|list| - 1], sealed, receipts, |list|);
  }

  lemma SealUnfolds(list: seq<Entry>, was: Entry, sealed: Entry, receipts: seq<Entry>)
    requires list != [] && was == list[|list| - 1] && Unfinished(was.payload)
    requires sealed == was.(payload := was.payload.(calls := SealCalls(was.payload.calls)))
    requires receipts == Receipts(Unrun(was.payload.calls))
    ensures SealList(list) == list[..|list| - 1] + [sealed] + receipts
  {
    hide Unrun, Receipts, SealCalls, HasPending;
  }

  lemma JoinParts(all: seq<Entry>, front: seq<Entry>, last: Entry, receipts: seq<Entry>, n: nat)
    requires all == front + [last] + receipts && n == |front| + 1
    ensures |all| == n + |receipts| && all[..n - 1] == front && all[n - 1] == last
    ensures forall j | 0 <= j < |receipts| :: all[n + j] == receipts[j]
  {}

  /** A seal changes nothing where the last entry is no answer with a call pending. */
  lemma SealLeaves(list: seq<Entry>)
    ensures list == [] || !list[|list| - 1].payload.Assistant? || Waiting(list[|list| - 1].payload.calls) == 0 <==> SealList(list) == list
  {
    if list != [] && list[|list| - 1].payload.Assistant? {
      WaitingIsPending(list[|list| - 1].payload.calls);
      UnrunSays(list[|list| - 1].payload.calls);
      hide Unrun, Waiting, CANCELLED_RECEIPT, SealCalls;
    }
  }

  lemma {:induction false} WaitingIsPending(calls: seq<ToolCall>)
    ensures Waiting(calls) > 0 <==> HasPending(calls)
  {
    if calls != [] {
      WaitingIsPending(calls[..|calls| - 1]);
      assert forall k | 0 <= k < |calls| - 1 :: calls[..|calls| - 1][k] == calls[k];
    }
  }
}
