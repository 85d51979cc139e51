/**
  The agent loop (src/runtime/executor.cpp). The provider, the tools, the cancel flag, the shutdown flag and
  the notes a user leaves are answers given in time: any functions of a clock that ticks each time one of
  them is asked. Termination rests on two promises of theirs, `Obeys`.
*/
module ToolLoop {
  import opened Sequences
  import opened Wrappers
  import opened Utf8
  import opened Messages
  import opened GraphSpec
  import opened GraphRuns
  import opened MessageGraphs
  import opened Conversations
  import opened Requests
  import opened Protocol
  import opened Turns
  import opened Tallies
  import GraphStore
  import Cursors

  datatype World = World(
    hasToken: bool,
    cancelled: nat -> bool,
    shutdown: nat -> bool,
    provider: nat -> Reply,
    tool: (nat, Call) -> ToolResult,
    note: nat -> Text,
    stamp: nat -> Text,
    parse: Text -> Option<Json>,
    project: seq<Reasoning> -> Text,
    inputs: nat -> Inputs,
    receiptFor: (Text, Text) -> Text)

  predicate Cancels(w: World, t: nat) { w.hasToken && w.cancelled(t) }

  /** The cancel flag never clears, and a provider call made with it set fails. */
  ghost predicate Obeys(w: World) {
    && (forall s: nat, t: nat | s <= t :: w.cancelled(s) ==> w.cancelled(t))
    && (forall t: nat :: Cancels(w, t) ==> w.provider(t).Threw?)
  }

  const WRAP_UP := Ascii("[system] The tool-call budget for this turn is exhausted. Do not call any " +
    "more tools; answer now from what you have gathered so far.")

  const NOTE_PREFIX := Ascii("[user note during the turn] ")

  const BUDGET_SPENT := Ascii("The tool-call budget for this turn was reached without a final answer. " +
    "Please rephrase your request or narrow the scope, or raise the budget with the tool_call_budget agent setting.")

  function Said(role: Text, content: Text): ChatMessage { ChatMessage(0, [], role, content, [], Null, [], [], []) }

  function AnswerTo(call: Call, result: Text): ChatMessage {
    ChatMessage(0, [], TOOL_ROLE, result, [], Null, call.id, call.name, [])
  }

  /** The answer as the conversation keeps it: its text made valid, its calls pending under the ids they came with. */
  predicate AskedFor(asked: Entry, calls: seq<Call>) {
    && asked.payload.Assistant? && |asked.payload.calls| == |calls| && AllPending(asked.payload.calls)
    && forall k | 0 <= k < |calls| :: asked.payload.calls[k].id == calls[k].id && asked.payload.calls[k].name == calls[k].name
         && asked.payload.calls[k].arguments == calls[k].arguments
  }

  /** A receipt names its call and tool, and holds the result of the call. */
  predicate ReceiptFor(e: Entry, call: Call, result: ToolResult) {
    && e.payload.Receipt? && e.payload.callId == Sanitized(call.id) && e.payload.toolName == Sanitized(call.name)
    && e.payload.content == Sanitized(result.text)
  }

  predicate ReceiptsFor(receipts: seq<Entry>, calls: seq<Call>, ran: seq<ToolResult>) {
    && |receipts| == |ran| <= |calls|
    && forall k | 0 <= k < |ran| :: ReceiptFor(receipts[k], calls[k], ran[k])
  }

  /** From `at` on, before each call the flag is read, and the calls are run in order until it is seen set. */
  predicate RanFrom(w: World, at: nat, calls: seq<Call>, ran: seq<ToolResult>) {
    && |ran| <= |calls|
    && (forall k | 0 <= k < |ran| :: !Cancels(w, at + 2 * k) && ran[k] == w.tool(at + 2 * k + 1, calls[k]))
    && (|ran| < |calls| ==> Cancels(w, at + 2 * |ran|))
  }

  /** The note waiting when the calls are over; without a cancel flag none is taken. */
  function NoteAt(w: World, t: nat): Option<Entry> {
    if w.hasToken && w.note(t) != [] then Some(NoteEntry(w, w.note(t))) else None
  }

  /** The calls as the provider made them, under different ids where they had none. */
  predicate SameCalls(records: seq<ToolCall>, calls: seq<Call>) {
    && |records| == |calls|
    && (forall k | 0 <= k < |calls| :: records[k].name == calls[k].name && records[k].arguments == calls[k].arguments)
    && (forall k | 0 <= k < |calls| && calls[k].id != [] :: records[k].id == calls[k].id)
    && forall j, k | 0 <= j < k < |calls| && calls[j].id == calls[k].id == [] :: records[j].id != records[k].id
  }

  function CallsMade(records: seq<ToolCall>): seq<Call> {
    seq(|records|, k requires 0 <= k < |records| => Call(records[k].id, records[k].name, records[k].arguments))
  }

  /** A round ended as what it heard says: an answer is the reply's text and calls, a receipt a result of its call. */
  ghost predicate Hears(w: World, end: Ending, heard: Heard) {
    match end
    case Called(asked, receipts, note, sealed) =>
      && heard.reply.Replied? && heard.reply.calls != [] && asked.payload.Assistant?
      && asked.payload.content == Sanitized(heard.reply.content)
      && asked.payload.reasoning == CleanReasoning(heard.reply.reasoning)
      && SameCalls(asked.payload.calls, heard.reply.calls)
      && ReceiptsFor(receipts, CallsMade(asked.payload.calls), heard.ran)
      && exists at: nat, done: nat | at <= done ::
           RanFrom(w, at, CallsMade(asked.payload.calls), heard.ran) && note == NoteAt(w, done) && sealed == Cancels(w, done + 1)
    case Answered => heard.reply.Replied? && heard.reply.calls == [] && heard.ran == []
    case _ => heard.reply.Threw? && heard.ran == []
  }

  /** What each round of a turn heard. */
  ghost predicate HeardInTurn(w: World, laps: seq<Lap>, heard: seq<Heard>) {
    && |heard| == |laps|
    && forall k | 0 <= k < |laps| :: Hears(w, laps[k].end, heard[k]) && exists t: nat :: heard[k].reply == w.provider(t)
  }

  /** What one round makes of the result. */
  predicate RoundCounts(w: World, r0: Result, end: Ending, heard: Heard, r: Result) {
    && (end.Answered? ==> heard.reply.Replied?)
    && r == Counting(r0, heard.ran).(rounds := r0.rounds + 1, hasError := r0.hasError || end.Failed?,
         wasStreamed := r0.wasStreamed || heard.reply.streamed != [],
         content := if end.Answered? then FinalContent(w, heard.reply) else r0.content + heard.reply.streamed)
  }

  /** What the rounds so far made of the result. */
  predicate Tallied(w: World, laps: seq<Lap>, heard: seq<Heard>, r: Result) {
    && |heard| == |laps|
    && r == Counting(NO_RESULT, Results(heard)).(rounds := |laps|, content := r.content, wasStreamed := Streamed(heard) != [],
                                                hasError := laps != [] && laps[|laps| - 1].end.Failed?)
    && if laps != [] && laps[|laps| - 1].end.Answered?
       then heard[|laps| - 1].reply.Replied? && r.content == FinalContent(w, heard[|laps| - 1].reply)
       else r.content == Streamed(heard)
  }

  /**
    What a turn comes to. Stopped or abandoned, it has no error. Else what it said last, the final answer or what
    was streamed, is its content; one that said nothing tells the budget was reached, or was in error unless a
    call was let through, and then for refusals alone exactly when there were calls and all were refused.
  */
  ghost predicate EndsAs(w: World, laps: seq<Lap>, heard: seq<Heard>, r: Result) {
    && laps != [] && |heard| == |laps|
    && r.rounds == |laps| && r.toolCallCount == |Results(heard)| && r.blocked == Refused(Results(heard))
    && r.unaskable == Unaskable(Results(heard)) && (r.wasStreamed <==> Streamed(heard) != [])
    && var end, reply, ran := laps[|laps| - 1].end, heard[|laps| - 1].reply, Results(heard);
      && (end.Answered? ==> reply.Replied?)
      && var said := if !end.Answered? then Streamed(heard) else if reply.content != [] then reply.content else w.project(reply.reasoning);
        if end.Stopped? || end.Abandoned? then Plain(r) && r.content == said && !r.hasError
        else if said != [] then Plain(r) && r.content == said && (r.hasError <==> end.Failed?)
        else if WrapUpAsked(laps) then
          r.outcome.ToolBudgetReached? && r.content == BUDGET_SPENT && r.hasError && !r.onlyBlocked && !r.onlyUnaskable
        else
          && r.outcome.TurnCompleted? && r.content == []
          && (!r.hasError <==> !end.Failed? && exists k :: 0 <= k < |ran| && !ran[k].blocked)
          && (r.onlyBlocked <==> ran != [] && forall k | 0 <= k < |ran| :: ran[k].blocked)
          && (r.onlyUnaskable <==> ran != [] && forall k | 0 <= k < |ran| :: ran[k].blocked && ran[k].unaskable)
  }

  /** A turn that ran its rounds to the end and said nothing comes to this. */
  predicate Concludes(r0: Result, budgetReached: bool, ran: seq<ToolResult>, r: Result) {
    if r0.content != [] then r == r0
    else if budgetReached then r == r0.(outcome := ToolBudgetReached, content := BUDGET_SPENT, hasError := true)
    else
      && r == r0.(hasError := r.hasError, onlyBlocked := r.onlyBlocked, onlyUnaskable := r.onlyUnaskable)
      && (!r.hasError <==> !r0.hasError && exists k :: 0 <= k < |ran| && !ran[k].blocked)
      && (r.onlyBlocked <==> ran != [] && forall k | 0 <= k < |ran| :: ran[k].blocked)
      && (r.onlyUnaskable <==> ran != [] && forall k | 0 <= k < |ran| :: ran[k].blocked && ran[k].unaskable)
  }

  predicate Plain(r: Result) { r.outcome.TurnCompleted? && !r.onlyBlocked && !r.onlyUnaskable }

  lemma AnsweredCalls(asked: Entry, calls: seq<Call>, receipts: seq<Entry>, ran: seq<ToolResult>)
    requires AskedFor(asked, calls) && ReceiptsFor(receipts, calls, ran)
    ensures CallsMade(asked.payload.calls) == calls
    ensures forall k | 0 <= k < |receipts| :: Answers(receipts[k].payload, asked.payload.calls[k])
  {
    hide Sanitized;
    forall k | 0 <= k < |receipts| ensures Answers(receipts[k].payload, asked.payload.calls[k]) {
      assert ReceiptFor(receipts[k], calls[k], ran[k]);
    }
  }

  lemma PushAllNone(list: seq<Entry>)
    ensures PushAll(list, []) == list
  {}

  lemma {:induction false} PushAllSnoc(list: seq<Entry>, es: seq<Entry>, e: Entry)
    ensures PushAll(list, es + [e]) == Push(PushAll(list, es), e)
    decreases |es|
  {
    hide Push;
    if es == [] {
      assert [] + [e] == [e];
      assert PushAll(Push(list, e), [e][1..]) == Push(list, e);
    } else {
      assert (es + [e])[1..] == es[1..] + [e];
      PushAllSnoc(Push(list, es[0]), es[1..], e);
    }
  }

  function Zeros(n: nat): Text { seq(n, _ => 0) }

  method LongestId(g: MessageGraph) returns (length: nat)
    ensures forall i | i in g.nodes :: |i| <= length
  {
    length := 0;
    var todo := g.nodes.Keys;
    while todo != {}
      invariant todo <= g.nodes.Keys
      invariant forall i | i in g.nodes.Keys - todo :: |i| <= length
      decreases |todo|
    {
      var i :| i in todo;
      todo := todo - {i};
      if |i| > length { length := |i|; }
    }
  }

  /** New message ids: random in the source, here any the graph does not have. */
  method NewMessageIds(g: MessageGraph, n: nat) returns (ids: seq<MessageId>)
    ensures |ids| == n && FreshIds(g.State(), ids)
  {
    var length := LongestId(g);
    ids := [];
    for k := 0 to n
      invariant |ids| == k && forall i | 0 <= i < k :: |ids[i]| == length + 1 + i && Fresh(g.State(), ids[i])
    {
      ids := ids + [Zeros(length + 1 + k)];
    }
  }

  method Say(w: World, c: Conversation, m: ChatMessage)
    requires Sound(c.graph.State())
    modifies c.graph
    ensures Sound(c.graph.State()) && c.Listed() == Push(old(c.Listed()), Incoming(m, w.parse))
  {
    var ids := NewMessageIds(c.graph, 1);
    c.Append(m, w.parse, ids[0]);
  }

  method SealTurn(c: Conversation)
    requires Sound(c.graph.State())
    modifies c.graph
    ensures Sound(c.graph.State()) && c.Listed() == SealList(old(c.Listed()))
  {
    var unrun := 0;
    if c.graph.leaf in c.graph.nodes && c.graph.nodes[c.graph.leaf].payload.Assistant? {
      unrun := |Unrun(c.graph.nodes[c.graph.leaf].payload.calls)|;
    }
    var ids := NewMessageIds(c.graph, unrun);
    c.SealInterruptedToolCalls(ids);
  }

  /** The wrap-up message, a note and an answer's role are what they say. */
  lemma IncomingKinds(m: ChatMessage, parse: Text -> Option<Json>)
    ensures var p := Incoming(m, parse).payload;
      && (m.role == USER_ROLE ==> p == User(Sanitized(m.content), m.fromPeer))
      && (m.role == TOOL_ROLE ==>
        p == Receipt(Sanitized(m.toolCallId), Sanitized(m.toolName), Sanitized(m.content), OriginOf(Sanitized(m.content), parse)))
      && (m.role == ASSISTANT_ROLE ==> p == Assistant(Sanitized(m.content), CleanReasoning(m.reasoning), CallsFromProvider(m.toolCalls)))
  {
    GraphStore.RolesDiffer();
  }

  function NoteEntry(w: World, note: Text): Entry { Incoming(Said(USER_ROLE, NOTE_PREFIX + note), w.parse) }

  function WrapUpEntry(w: World): Entry { Incoming(Said(USER_ROLE, WRAP_UP), w.parse) }

  /** A request was built from this list. */
  ghost predicate BuiltFrom(w: World, list: seq<Entry>, request: seq<ChatMessage>) {
    exists inputs, chain :: Entries(chain) == list && IsRequest(inputs, chain, w.receiptFor, request)
  }

  /** The requests of a turn, each built from the conversation as its round found it. */
  ghost predicate BuiltInTurn(w: World, list: seq<Entry>, laps: seq<Lap>, sent: seq<seq<ChatMessage>>) {
    && |sent| == |laps|
    && forall k | 0 <= k < |laps| :: BuiltFrom(w, Asking(Play(list, laps[..k]), laps[k]), sent[k])
  }

  /** Every call has an id; each receipt carries its call's, made valid text; the wrap-up is the loop's own. */
  predicate IsNamed(w: World, lap: Lap) {
    && (lap.wrapUp.Some? ==> lap.wrapUp.value == WrapUpEntry(w))
    && (lap.end.Called? && lap.end.asked.payload.Assistant? ==>
      && (forall k | 0 <= k < |lap.end.asked.payload.calls| :: lap.end.asked.payload.calls[k].id != [])
      && |lap.end.receipts| <= |lap.end.asked.payload.calls|
      && forall k | 0 <= k < |lap.end.receipts| ::
           lap.end.receipts[k].payload.Receipt? && lap.end.receipts[k].payload.callId == Sanitized(lap.end.asked.payload.calls[k].id))
  }

  predicate AllNamed(w: World, laps: seq<Lap>) { forall k | 0 <= k < |laps| :: IsNamed(w, laps[k]) }

  /**
    In every request of a turn begun in order, an answer with calls is followed at once by exactly their
    receipts in call order, if and only if in each round before it every call ran, or none did and no note
    came between.
  */
  lemma RequestsFollowProtocol(w: World, budget: int, list: seq<Entry>, laps: seq<Lap>, sent: seq<seq<ChatMessage>>, k: nat)
    requires Legal(budget, laps) && InOrder(list) && BuiltInTurn(w, list, laps, sent) && k < |sent|
    ensures InOrder(AsRead(sent[k], w.parse)) <==> forall i | 0 <= i < k :: CleanLap(laps[i])
  {
    var asking := Asking(Play(list, laps[..k]), laps[k]);
    assert BuiltFrom(w, asking, sent[k]);
    var inputs, chain :| Entries(chain) == asking && IsRequest(inputs, chain, w.receiptFor, sent[k]);
    hide IsRequest, InOrder, AsRead, CleanLap;
    RequestKeepsOrder(inputs, chain, w.receiptFor, sent[k], w.parse);
    RequestsInOrder(budget, list, laps, k);
  }

  /** The ids a round's calls go by are valid text. */
  predicate ValidIds(lap: Lap) {
    lap.end.Called? && lap.end.asked.payload.Assistant? ==>
      forall k | 0 <= k < |lap.end.asked.payload.calls| :: Valid(lap.end.asked.payload.calls[k].id)
  }

  /**
    Where ids are valid text, a turn leaves no record pending exactly when in each of its rounds all calls
    ran under different ids, or none ran and no note came between.
  */
  lemma ValidIdsSettle(w: World, budget: int, list: seq<Entry>, laps: seq<Lap>)
    requires Legal(budget, laps) && AllNamed(w, laps) && NonePending(list)
    requires forall i | 0 <= i < |laps| :: ValidIds(laps[i])
    ensures NonePending(Play(list, laps)) <==> forall i | 0 <= i < |laps| :: Settles(laps[i])
  {
    hide Sanitized, Valid, Play, NonePending, Settles;
    forall i | 0 <= i < |laps| ensures Carries(laps[i]) {
      assert IsNamed(w, laps[i]) && ValidIds(laps[i]);
      if laps[i].end.Called? && laps[i].end.asked.payload.Assistant? {
        var calls := laps[i].end.asked.payload.calls;
        forall k | 0 <= k < |calls| ensures Sanitized(calls[k].id) == calls[k].id { SanitizedIsIdentity(calls[k].id); }
      }
    }
    NoRecordLeftPending(budget, list, laps);
  }

  /** A reply without calls answers with its text, or with its reasoning when it has no text. */
  function FinalContent(w: World, reply: Reply): Text
    requires reply.Replied?
  {
    if reply.content == [] then w.project(reply.reasoning) else reply.content
  }

  /** The id given to a call without one: a stamp and a number. */
  function GivenId(stamp: Text, number: nat): Text {
    Ascii("call_") + stamp + Ascii("_") + Ascii(Cursors.Decimal(number))
  }

  lemma GivenIsSome(stamp: Text, number: nat)
    ensures GivenId(stamp, number) != []
  {
    assert |Ascii("call_")| == 5;
  }

  /** What comes after its last underscore is the number. */
  lemma GivenIdsDiffer(s: Text, m: nat, t: Text, n: nat)
    requires m != n
    ensures GivenId(s, m) != GivenId(t, n)
  {
    if GivenId(s, m) == GivenId(t, n) {
      GivenEnds(s, m);
      GivenEnds(t, n);
      SameTail(GivenId(s, m), Ascii(Cursors.Decimal(m)), Ascii(Cursors.Decimal(n)));
      AsciiSame(Cursors.Decimal(m), Cursors.Decimal(n));
      Cursors.DecimalInjective(m, n);
    }
  }

  lemma SameTail(a: Text, d: Text, e: Text)
    requires |a| > |d| && a[|a| - |d|..] == d && a[|a| - |d| - 1] == 0x5F && 0x5F !in d
    requires |a| > |e| && a[|a| - |e|..] == e && a[|a| - |e| - 1] == 0x5F && 0x5F !in e
    ensures d == e
  {
    var (x, y) := (|a| - |d| - 1, |a| - |e| - 1);
    assert forall k | x < k < |a| :: a[k] in d by { assert forall k | x < k < |a| :: a[k] == d[k - x - 1]; }
    assert forall k | y < k < |a| :: a[k] in e by { assert forall k | y < k < |a| :: a[k] == e[k - y - 1]; }
  }

  lemma GivenEnds(s: Text, n: nat)
    ensures var (a, d) := (GivenId(s, n), Ascii(Cursors.Decimal(n)));
      |a| > |d| && a[|a| - |d|..] == d && a[|a| - |d| - 1] == 0x5F && 0x5F !in d
  {
    var front := Ascii("call_") + s;
    assert Ascii("_") == [0x5F];
    assert GivenId(s, n) == front + [0x5F] + Ascii(Cursors.Decimal(n));
  }

  lemma AsciiSame(a: string, b: string)
    requires Ascii(a) == Ascii(b) && Cursors.AllDigits(a) && Cursors.AllDigits(b)
    ensures a == b
  {
    assert |a| == |Ascii(a)| == |b|;
    forall k | 0 <= k < |a| ensures a[k] == b[k] { assert Ascii(a)[k] == Ascii(b)[k]; }
  }

  class Executor {
    var toolCallBudget: int
    var userNote: Text
    var nextToolCallId: nat
    var now: nat

    constructor (budget: int)
      ensures toolCallBudget == budget && userNote == []
    {
      toolCallBudget, userNote, nextToolCallId, now := budget, [], 0, 0;
    }

    method ReadCancel(w: World) returns (r: bool)
      modifies `now
      ensures r == Cancels(w, old(now)) && now == old(now) + 1
    {
      r := w.hasToken && w.cancelled(now);
      now := now + 1;
    }

    /** A call without an id is given one, so that its receipt can name it, and no two are given the same. */
    method NameCalls(w: World, calls: seq<Call>) returns (named: seq<Call>)
      modifies `now, `nextToolCallId
      ensures now >= old(now) && nextToolCallId >= old(nextToolCallId) && |named| == |calls|
      ensures forall k | 0 <= k < |calls| :: named[k].id != [] && (calls[k].id != [] ==> named[k] == calls[k])
      ensures forall k | 0 <= k < |calls| :: named[k].name == calls[k].name && named[k].arguments == calls[k].arguments
      ensures forall j, k | 0 <= j < k < |calls| && calls[j].id == calls[k].id == [] :: named[j].id != named[k].id
    {
      named := calls;
      ghost var numbers: seq<nat>, stamps: seq<Text> := [], [];
      for i := 0 to |calls|
        invariant |named| == |calls| && now >= old(now) && nextToolCallId >= old(nextToolCallId)
        invariant forall k | i <= k < |calls| :: named[k] == calls[k]
        invariant forall k | 0 <= k < i :: named[k].id != [] && (calls[k].id != [] ==> named[k] == calls[k])
        invariant forall k | 0 <= k < i :: named[k].name == calls[k].name && named[k].arguments == calls[k].arguments
        invariant |numbers| == |stamps| == i
        invariant forall k | 0 <= k < i && calls[k].id == [] :: named[k].id == GivenId(stamps[k], numbers[k])
        invariant forall k | 0 <= k < i :: numbers[k] <= nextToolCallId
        invariant forall j, k | 0 <= j < k < i && calls[k].id == [] :: numbers[j] < numbers[k]
      {
        hide GivenId;
        ghost var stamp := w.stamp(now);
        if named[i].id == [] {
          nextToolCallId := nextToolCallId + 1;
          GivenIsSome(stamp, nextToolCallId);
          named := named[i := named[i].(id := NextId(w.stamp(now)))];
          now := now + 1;
        }
        numbers, stamps := numbers + [nextToolCallId], stamps + [stamp];
      }
      forall j, k | 0 <= j < k < |calls| && calls[j].id == calls[k].id == [] ensures named[j].id != named[k].id {
        GivenIdsDiffer(stamps[j], numbers[j], stamps[k], numbers[k]);
      }
    }

    function NextId(stamp: Text): Text
      reads this
    {
      GivenId(stamp, nextToolCallId)
    }

    method CallItems(calls: seq<Call>) returns (items: seq<Json>)
      ensures |items| == |calls|
      ensures forall k | 0 <= k < |calls| ::
        items[k] == CallForProvider(ToolCall(calls[k].id, calls[k].name, calls[k].arguments, Pending))
    {
      items := [];
      for i := 0 to |calls|
        invariant |items| == i
        invariant forall k | 0 <= k < i :: items[k] == CallForProvider(ToolCall(calls[k].id, calls[k].name, calls[k].arguments, Pending))
      {
        items := items + [CallForProvider(ToolCall(calls[i].id, calls[i].name, calls[i].arguments, Pending))];
      }
    }

    method AppendAssistantTurn(w: World, c: Conversation, content: Text, reasoning: seq<Reasoning>, calls: seq<Call>)
        returns (ghost asked: Entry)
      requires Sound(c.graph.State())
      modifies c.graph
      ensures Sound(c.graph.State()) && AskedFor(asked, calls)
      ensures asked.payload.content == Sanitized(content) && asked.payload.reasoning == CleanReasoning(reasoning)
      ensures c.Listed() == old(c.Listed()) + [asked]
    {
      hide Sound, Incoming, Sanitized, CleanReasoning;
      var items := CallItems(calls);
      var m := ChatMessage(0, [], ASSISTANT_ROLE, content, reasoning, Arr(items), [], [], []);
      asked := Incoming(m, w.parse);
      IncomingKinds(m, w.parse);
      Say(w, c, m);
    }

    /** Waiting notes go to the tools of this round; one that arrives meanwhile is kept for its end. */
    method BuildToolContext()
      modifies `userNote
      ensures userNote == []
    {
      userNote := [];
    }

    /** A call is run: its result is its receipt, and counts as refused, and as unaskable, when it says so. */
    method RunOne(w: World, c: Conversation, call: Call, r0: Result)
        returns (r: Result, ghost receipt: Entry, ghost heard: ToolResult)
      requires Sound(c.graph.State())
      modifies `now, c.graph
      ensures Sound(c.graph.State()) && now == old(now) + 1
      ensures ReceiptFor(receipt, call, heard) && c.Listed() == Push(old(c.Listed()), receipt)
      ensures heard == w.tool(old(now), call)
      ensures r == r0.(toolCallCount := r0.toolCallCount + 1, blocked := r0.blocked + (if heard.blocked then 1 else 0),
                       unaskable := r0.unaskable + (if heard.blocked && heard.unaskable then 1 else 0))
    {
      hide Sound, Push, Incoming, Entries, ChainOf, ReceiptFor, AnswerTo;
      r := r0.(toolCallCount := r0.toolCallCount + 1);
      var result := w.tool(now, call);
      heard := result;
      now := now + 1;
      if result.blocked {
        r := r.(blocked := r.blocked + 1);
        if result.unaskable { r := r.(unaskable := r.unaskable + 1); }
      }
      var m := AnswerTo(call, result.text);
      receipt := Incoming(m, w.parse);
      ReceiptIs(w, call, result);
      Say(w, c, m);
    }

    lemma ReceiptIs(w: World, call: Call, result: ToolResult)
      ensures ReceiptFor(Incoming(AnswerTo(call, result.text), w.parse), call, result)
    {
      hide Sanitized, Incoming;
      IncomingKinds(AnswerTo(call, result.text), w.parse);
    }

    /** Receipts in call order until the flag is seen; then the note; then, if the flag is set, the seal. */
    method RunToolCalls(w: World, c: Conversation, calls: seq<Call>, r0: Result)
        returns (r: Result, ghost ran: seq<ToolResult>, ghost receipts: seq<Entry>, ghost note: Option<Entry>, ghost sealed: bool)
      requires Sound(c.graph.State()) && Obeys(w)
      modifies `now, `userNote, c.graph
      ensures Sound(c.graph.State()) && now >= old(now) + 2
      ensures c.Listed() == Round(old(c.Listed()), receipts, note, sealed)
      ensures ReceiptsFor(receipts, calls, ran) && RanFrom(w, old(now), calls, ran)
      ensures note == NoteAt(w, now - 2) && sealed == Cancels(w, now - 1)
      ensures userNote == if w.hasToken then [] else w.note(now - 2)
      ensures |receipts| < |calls| ==> sealed && Cancels(w, now)
      ensures r == Counting(r0, ran)
    {
      hide Sound, Obeys, Push, PushAll, SealList, ReceiptsFor, RanFrom, NoteEntry;
      BuildToolContext();
      r, ran, receipts := RunUntilCancelled(w, c, calls, r0);
      FlagStays(w, now, now + 1);
      note := TakeNote(w, c);
      var cancelled := ReadCancel(w);
      FlagStays(w, now - 1, now);
      sealed := cancelled;
      if cancelled { SealTurn(c); }
    }

    method RunUntilCancelled(w: World, c: Conversation, calls: seq<Call>, r0: Result)
        returns (r: Result, ghost ran: seq<ToolResult>, ghost receipts: seq<Entry>)
      requires Sound(c.graph.State()) && Obeys(w)
      modifies `now, c.graph
      ensures Sound(c.graph.State()) && now >= old(now)
      ensures c.Listed() == PushAll(old(c.Listed()), receipts)
      ensures ReceiptsFor(receipts, calls, ran) && RanFrom(w, old(now), calls, ran)
      ensures |receipts| < |calls| ==> Cancels(w, now)
      ensures r == Counting(r0, ran)
    {
      hide Sound, Obeys, Push, PushAll, ReceiptFor, Entries, ChainOf, Cancels, Counting;
      r, ran, receipts := r0, [], [];
      CountingNone(r0);
      PushAllNone(c.Listed());
      ghost var list := c.Listed();
      for i := 0 to |calls|
        invariant |receipts| == |ran| == i && now == old(now) + 2 * i
        invariant Sound(c.graph.State()) && c.Listed() == PushAll(list, receipts)
        invariant forall k | 0 <= k < i :: ReceiptFor(receipts[k], calls[k], ran[k])
        invariant forall k | 0 <= k < i :: !Cancels(w, old(now) + 2 * k) && ran[k] == w.tool(old(now) + 2 * k + 1, calls[k])
        invariant r == Counting(r0, ran)
      {
        var cancelled := ReadCancel(w);
        if cancelled {
          FlagStays(w, now - 1, now);
          break;
        }
        ghost var receipt, heard;
        CountingOne(r0, ran, w.tool(now, calls[i]));
        r, receipt, heard := RunOne(w, c, calls[i], r);
        PushAllSnoc(list, receipts, receipt);
        receipts, ran := receipts + [receipt], ran + [heard];
      }
    }

    lemma FlagStays(w: World, s: nat, t: nat)
      requires Obeys(w) && s <= t
      ensures Cancels(w, s) ==> Cancels(w, t)
    {}

    /** A note the user left while the calls ran rides after all their receipts. */
    method TakeNote(w: World, c: Conversation) returns (ghost note: Option<Entry>)
      requires Sound(c.graph.State())
      modifies `now, `userNote, c.graph
      ensures Sound(c.graph.State()) && now == old(now) + 1
      ensures c.Listed() == if note.Some? then Push(old(c.Listed()), note.value) else old(c.Listed())
      ensures var waiting := if w.note(old(now)) != [] then w.note(old(now)) else old(userNote);
        && note == (if w.hasToken && waiting != [] then Some(NoteEntry(w, waiting)) else None)
        && userNote == if w.hasToken then [] else waiting
    {
      note := None;
      if w.note(now) != [] { userNote := w.note(now); }
      now := now + 1;
      if userNote != [] && w.hasToken {
        note := Some(NoteEntry(w, userNote));
        Say(w, c, Said(USER_ROLE, NOTE_PREFIX + userNote));
        userNote := [];
      }
    }

    /** The request is built from the conversation as it stands; an exception is a stop, an abandonment or a failure. */
    method CallProvider(w: World, c: Conversation, r0: Result)
        returns (reply: Option<Reply>, r: Result, end: Ending, ghost request: seq<ChatMessage>)
      requires Sound(c.graph.State()) && Obeys(w)
      modifies `now
      ensures now > old(now)
      ensures BuiltFrom(w, c.Listed(), request)
      ensures reply.Some? ==> reply.value.Replied?
      ensures reply == if w.provider(old(now)).Replied? then Some(w.provider(old(now))) else None
      ensures end == if reply.Some? then Answered
                     else if Cancels(w, old(now) + 1) then Stopped
                     else if w.shutdown(old(now) + 2) then Abandoned else Failed
      ensures Cancels(w, old(now)) ==> end.Stopped?
      ensures r.content == r0.content + w.provider(old(now)).streamed
      ensures r.wasStreamed == (r0.wasStreamed || w.provider(old(now)).streamed != [])
      ensures r == r0.(content := r.content, wasStreamed := r.wasStreamed, hasError := r0.hasError || end.Failed?)
    {
      var messages := BuildRequestPath(c.graph, w.inputs(now), w.receiptFor);
      request := messages;
      r := r0;
      ghost var asked := now;
      var answer := w.provider(now);
      now := now + 1;
      if answer.streamed != [] { r := r.(wasStreamed := true, content := r.content + answer.streamed); }
      if answer.Replied? { return Some(answer), r, Answered, request; }
      reply := None;
      FlagStays(w, asked, now);
      var cancelled := ReadCancel(w);
      if cancelled { end := Stopped; }
      else if w.shutdown(now) { end := Abandoned; }
      else {
        end := Failed;
        r := r.(hasError := true);
      }
    }

    /** One round of the loop: perhaps the wrap-up, the provider, and the calls of its reply. */
    method OneRound(w: World, c: Conversation, r0: Result, wrapUp: bool)
        returns (r: Result, ghost lap: Lap, more: bool, early: bool, ghost request: seq<ChatMessage>, ghost heard: Heard)
      requires Sound(c.graph.State()) && Obeys(w)
      modifies this, c.graph
      ensures toolCallBudget == old(toolCallBudget) && now > old(now)
      ensures Sound(c.graph.State()) && c.Listed() == AfterLap(old(c.Listed()), lap)
      ensures BuiltFrom(w, Asking(old(c.Listed()), lap), request)
      ensures IsLap(lap) && IsNamed(w, lap) && (lap.wrapUp.Some? <==> wrapUp)
      ensures Cancels(w, old(now)) ==> lap.end.Stopped?
      ensures CutShort(lap.end) ==> Cancels(w, now)
      ensures (more <==> lap.end.Called?) && (early <==> lap.end.Stopped? || lap.end.Abandoned?)
      ensures Hears(w, lap.end, heard) && heard.reply == w.provider(old(now))
      ensures RoundCounts(w, r0, lap.end, heard, r)
    {
      hide Sound, Obeys, AfterEnd, Asking, BuiltFrom, IsLap, IsNamed, Entries, ChainOf, Cancels, Hears, RoundCounts;
      ghost var wrap := AskWrapUp(w, c, wrapUp);
      var reply, end;
      ghost var said := w.provider(now);
      reply, r, end, request := CallProvider(w, c, r0.(rounds := r0.rounds + 1));
      ghost var last, ran;
      ghost var r1 := r;
      r, last, more, early, ran := EndRound(w, c, reply, end, r, said);
      heard := Heard(said, ran);
      RoundAdds(w, r0, r1, last, heard, r);
      lap := Lap(wrap, last);
      LapParts(w, wrap, last);
      AskingIsWrapUps(old(c.Listed()), wrap, last);
    }

    lemma AskingIsWrapUps(list: seq<Entry>, wrap: Option<Entry>, last: Ending)
      ensures Asking(list, Lap(wrap, last)) == Asking(list, Lap(wrap, Answered))
    {}

    lemma LapParts(w: World, wrap: Option<Entry>, last: Ending)
      requires IsLap(Lap(wrap, Answered)) && IsNamed(w, Lap(wrap, Answered))
      requires IsLap(Lap(None, last)) && IsNamed(w, Lap(None, last))
      ensures IsLap(Lap(wrap, last)) && IsNamed(w, Lap(wrap, last))
    {
      hide IsRound, Sanitized, WrapUpEntry;
    }

    method AskWrapUp(w: World, c: Conversation, wrapUp: bool) returns (ghost wrap: Option<Entry>)
      requires Sound(c.graph.State())
      modifies c.graph
      ensures Sound(c.graph.State()) && c.Listed() == Asking(old(c.Listed()), Lap(wrap, Answered))
      ensures (wrap.Some? <==> wrapUp) && IsLap(Lap(wrap, Answered)) && IsNamed(w, Lap(wrap, Answered))
    {
      hide Sound, Push, WrapUpEntry, Entries, ChainOf;
      wrap := None;
      if wrapUp {
        wrap := Some(WrapUpEntry(w));
        WrapUpIs(w);
        Say(w, c, Said(USER_ROLE, WRAP_UP));
      }
    }

    /** What the reply asks for is done; a stopped turn is sealed; a final answer is the turn's content. */
    method EndRound(w: World, c: Conversation, reply: Option<Reply>, end: Ending, r0: Result, ghost said: Reply)
        returns (r: Result, ghost last: Ending, more: bool, early: bool, ghost ran: seq<ToolResult>)
      requires Sound(c.graph.State()) && Obeys(w) && reply == if said.Replied? then Some(said) else None
      requires if reply.Some? then end.Answered? else end.Failed? || end.Stopped? || end.Abandoned?
      modifies this, c.graph
      ensures toolCallBudget == old(toolCallBudget) && now >= old(now)
      ensures Sound(c.graph.State()) && c.Listed() == AfterEnd(old(c.Listed()), last)
      ensures IsLap(Lap(None, last)) && IsNamed(w, Lap(None, last))
      ensures !end.Answered? ==> last == end
      ensures end.Answered? ==> last.Answered? || last.Called?
      ensures Hears(w, last, Heard(said, ran)) && (last.Answered? ==> said.Replied?)
      ensures r == Counting(r0, ran).(content := if last.Answered? then FinalContent(w, said) else r0.content)
      ensures CutShort(last) ==> Cancels(w, now)
      ensures (more <==> last.Called?) && (early <==> last.Stopped? || last.Abandoned?)
    {
      hide Sound, Obeys, Round, SealList, IsRound, Refused, SameCalls, ReceiptFor, Sanitized, Entries, ChainOf;
      r, last, more, early, ran := r0, end, false, end.Stopped? || end.Abandoned?, [];
      CountingNone(r0);
      if end.Stopped? { SealTurn(c); }
      if reply == None { return; }
      var answer := reply.value;
      if answer.calls == [] {
        var response := answer.content;
        if response == [] && w.project(answer.reasoning) != [] { response := w.project(answer.reasoning); }
        r := r.(content := response);
        return;
      }
      r, last, ran := RunReply(w, c, answer, r);
      more := true;
    }

    lemma WrapUpIs(w: World)
      ensures WrapUpEntry(w) == Incoming(Said(USER_ROLE, WRAP_UP), w.parse) && WrapUpEntry(w).payload.User?
    {
      IncomingKinds(Said(USER_ROLE, WRAP_UP), w.parse);
    }

    lemma NoteIs(w: World, text: Text)
      ensures NoteEntry(w, text).payload.User?
    {
      IncomingKinds(Said(USER_ROLE, NOTE_PREFIX + text), w.parse);
    }

    method RunReply(w: World, c: Conversation, answer: Reply, r0: Result)
        returns (r: Result, ghost end: Ending, ghost ran: seq<ToolResult>)
      requires Sound(c.graph.State()) && Obeys(w) && answer.Replied? && answer.calls != []
      modifies this, c.graph
      ensures toolCallBudget == old(toolCallBudget) && now >= old(now)
      ensures Sound(c.graph.State()) && end.Called?
      ensures c.Listed() == Round(old(c.Listed()) + [end.asked], end.receipts, end.note, end.sealed)
      ensures IsRound(end.asked, end.receipts, end.note, end.sealed) && IsNamed(w, Lap(None, end))
      ensures Hears(w, end, Heard(answer, ran))
      ensures CutShort(end) ==> Cancels(w, now)
      ensures r == Counting(r0, ran)
    {
      hide Sound, Obeys, Round, Sanitized, NoteEntry, ReceiptsFor, RanFrom, IsRound, IsNamed, AllPending, Cancels, Counting, Hears, Entries, ChainOf;
      var calls := NameCalls(w, answer.calls);
      ghost var asked := AppendAssistantTurn(w, c, answer.content, answer.reasoning, calls);
      ghost var receipts, note, sealed;
      ghost var at := now;
      r, ran, receipts, note, sealed := RunToolCalls(w, c, calls, r0);
      end := Called(asked, receipts, note, sealed);
      if note.Some? { NoteIs(w, w.note(now - 2)); }
      ReplyIsRound(w, answer, asked, calls, ran, end, at, now - 2);
    }

    lemma ReplyIsRound(w: World, answer: Reply, asked: Entry, calls: seq<Call>, ran: seq<ToolResult>, end: Ending,
        at: nat, done: nat)
      requires AskedFor(asked, calls) && calls != [] && answer.Replied? && |calls| == |answer.calls|
      requires forall k | 0 <= k < |calls| :: calls[k].id != [] && (answer.calls[k].id != [] ==> calls[k] == answer.calls[k])
      requires forall k | 0 <= k < |calls| :: calls[k].name == answer.calls[k].name && calls[k].arguments == answer.calls[k].arguments
      requires forall j, k | 0 <= j < k < |calls| && answer.calls[j].id == answer.calls[k].id == [] :: calls[j].id != calls[k].id
      requires asked.payload.content == Sanitized(answer.content) && asked.payload.reasoning == CleanReasoning(answer.reasoning)
      requires end.Called? && end.asked == asked && ReceiptsFor(end.receipts, calls, ran)
      requires RanFrom(w, at, calls, ran) && at <= done && end.note == NoteAt(w, done) && end.sealed == Cancels(w, done + 1)
      requires end.note.Some? ==> end.note.value.payload.User?
      requires |end.receipts| < |calls| ==> end.sealed
      ensures IsRound(asked, end.receipts, end.note, end.sealed) && IsNamed(w, Lap(None, end))
      ensures CutShort(end) ==> |end.receipts| < |calls|
      ensures Hears(w, end, Heard(answer, ran))
    {
      hide Sanitized, Answers, CleanReasoning, AllPending;
      AnsweredCalls(asked, calls, end.receipts, ran);
      hide ReceiptFor, RanFrom, NoteAt, Cancels, CallsMade;
      assert |end.receipts| <= |calls|;
      assert SameCalls(asked.payload.calls, answer.calls);
      ReceiptsCarryIds(end.receipts, calls, ran);
    }

    lemma ReceiptsCarryIds(receipts: seq<Entry>, calls: seq<Call>, ran: seq<ToolResult>)
      requires ReceiptsFor(receipts, calls, ran)
      ensures forall k | 0 <= k < |receipts| :: receipts[k].payload.Receipt? && receipts[k].payload.callId == Sanitized(calls[k].id)
    {
      hide Sanitized;
      assert forall k | 0 <= k < |receipts| :: ReceiptFor(receipts[k], calls[k], ran[k]);
    }

    /** What the loop knows at its top: the rounds so far all ran calls, and a cut-short one was cancelled. */
    ghost predicate Going(w: World, c: Conversation, list: seq<Entry>, r: Result, laps: seq<Lap>, sent: seq<seq<ChatMessage>>,
        heard: seq<Heard>)
      reads this, c, c.graph
    {
      && Sound(c.graph.State()) && c.Listed() == Play(list, laps)
      && Legal(toolCallBudget, laps) && AllNamed(w, laps) && BuiltInTurn(w, list, laps, sent)
      && HeardInTurn(w, laps, heard) && Tallied(w, laps, heard, r) && r.toolCallCount == Ran(laps)
    }

    ghost predicate GoesOn(w: World, laps: seq<Lap>)
      reads this
    {
      && (forall k | 0 <= k < |laps| :: laps[k].end.Called?)
      && (laps != [] && CutShort(laps[|laps| - 1].end) ==> Cancels(w, now))
    }

    lemma HeardGrows(w: World, laps: seq<Lap>, heard: seq<Heard>, r0: Result, lap: Lap, h: Heard, r: Result, t: nat)
      requires HeardInTurn(w, laps, heard) && Tallied(w, laps, heard, r0)
      requires forall k | 0 <= k < |laps| :: laps[k].end.Called?
      requires Hears(w, lap.end, h) && h.reply == w.provider(t) && RoundCounts(w, r0, lap.end, h, r)
      ensures HeardInTurn(w, laps + [lap], heard + [h]) && Tallied(w, laps + [lap], heard + [h], r)
      ensures r.toolCallCount == r0.toolCallCount + if lap.end.Called? then |lap.end.receipts| else 0
    {
      RanAsCounted(w, r0, lap.end, h, r);
      hide Hears;
      TallyGrows(w, laps, heard, r0, lap, h, r);
      hide Tallied, RoundCounts;
      var longer := laps + [lap];
      forall k | 0 <= k < |longer| ensures Hears(w, longer[k].end, (heard + [h])[k]) && exists u: nat :: (heard + [h])[k].reply == w.provider(u) {
        if k < |laps| { assert longer[k] == laps[k] && (heard + [h])[k] == heard[k]; }
      }
    }

    lemma RanAsCounted(w: World, r0: Result, end: Ending, h: Heard, r: Result)
      requires Hears(w, end, h) && RoundCounts(w, r0, end, h, r)
      ensures r.toolCallCount == r0.toolCallCount + if end.Called? then |end.receipts| else 0
    {
      hide FinalContent, Refused, Unaskable, Sanitized, CleanReasoning, ReceiptFor;
    }

    lemma TallyGrows(w: World, laps: seq<Lap>, heard: seq<Heard>, r0: Result, lap: Lap, h: Heard, r: Result)
      requires Tallied(w, laps, heard, r0) && (forall k | 0 <= k < |laps| :: laps[k].end.Called?)
      requires RoundCounts(w, r0, lap.end, h, r)
      ensures Tallied(w, laps + [lap], heard + [h], r)
    {
      hide FinalContent;
      ResultsGrow(heard, h);
      CountingJoin(NO_RESULT, Results(heard), h.ran);
      hide Refused, Unaskable, Results, Streamed;
      assert (laps + [lap])[|laps|] == lap && (heard + [h])[|laps|] == h;
      assert laps != [] ==> laps[|laps| - 1].end.Called?;
    }

    lemma LapsGrow(w: World, list: seq<Entry>, laps: seq<Lap>, sent: seq<seq<ChatMessage>>, lap: Lap, request: seq<ChatMessage>)
      requires Legal(toolCallBudget, laps) && AllNamed(w, laps) && BuiltInTurn(w, list, laps, sent)
      requires MayFollow(toolCallBudget, laps, lap) && IsNamed(w, lap)
      requires BuiltFrom(w, Asking(Play(list, laps), lap), request)
      ensures var longer := laps + [lap];
        && Legal(toolCallBudget, longer) && AllNamed(w, longer) && BuiltInTurn(w, list, longer, sent + [request])
        && Play(list, longer) == AfterLap(Play(list, laps), lap)
        && Ran(longer) == Ran(laps) + (if lap.end.Called? then |lap.end.receipts| else 0)
        && (WrapUpAsked(longer) <==> lap.wrapUp.Some?)
        && |longer| <= (if toolCallBudget > 0 then toolCallBudget else 0) + 1
    {
      var longer := laps + [lap];
      LegalSnoc(toolCallBudget, laps, lap);
      PlaySnoc(list, laps, lap);
      RoundsBounded(toolCallBudget, longer);
      hide BuiltFrom, Asking, Play, Legal, MayFollow, IsNamed, Ran, WrapUpAsked, AfterLap;
      assert AllNamed(w, longer) by {
        forall k | 0 <= k < |longer| ensures IsNamed(w, longer[k]) { if k < |laps| { assert longer[k] == laps[k]; } }
      }
      BuiltGrows(w, list, laps, sent, lap, request);
    }

    lemma BuiltGrows(w: World, list: seq<Entry>, laps: seq<Lap>, sent: seq<seq<ChatMessage>>, lap: Lap, request: seq<ChatMessage>)
      requires BuiltInTurn(w, list, laps, sent) && BuiltFrom(w, Asking(Play(list, laps), lap), request)
      ensures BuiltInTurn(w, list, laps + [lap], sent + [request])
    {
      hide BuiltFrom, Asking, Play;
      var longer := laps + [lap];
      forall k | 0 <= k < |longer| ensures BuiltFrom(w, Asking(Play(list, longer[..k]), longer[k]), (sent + [request])[k]) {
        if k < |laps| {
          assert longer[..k] == laps[..k] && longer[k] == laps[k];
        } else {
          assert longer[..k] == laps;
        }
      }
    }

    /**
      The loop: it ends, after at most one round more than the budget, having made the rounds `laps` and
      nothing else of the conversation. A turn that was not stopped or abandoned and has no error said
      something, or ran a call the sandbox let through.
    */
    method RunToolLoop(w: World, c: Conversation)
        returns (r: Result, ghost laps: seq<Lap>, ghost sent: seq<seq<ChatMessage>>, ghost heard: seq<Heard>)
      requires Sound(c.graph.State()) && Obeys(w)
      modifies this, c.graph
      ensures toolCallBudget == old(toolCallBudget)
      ensures Sound(c.graph.State()) && c.Listed() == Play(old(c.Listed()), laps)
      ensures Legal(toolCallBudget, laps) && AllNamed(w, laps) && BuiltInTurn(w, old(c.Listed()), laps, sent)
      ensures r.rounds == |laps| <= (if toolCallBudget > 0 then toolCallBudget else 0) + 1
      ensures r.toolCallCount == Ran(laps)
      ensures HeardInTurn(w, laps, heard) && EndsAs(w, laps, heard, r)
    {
      hide Obeys, Legal, AllNamed, BuiltInTurn, Play, Ran, WrapUpAsked, Sound, BuiltFrom, IsNamed, AfterLap, Asking;
      hide HeardInTurn, Tallied, EndsAs, Hears, RoundCounts, Concludes, Plain, Refused, Unaskable, Entries, ChainOf, Cancels, CutShort;
      ghost var list := c.Listed();
      r, laps, sent, heard := NO_RESULT, [], [], [];
      BeginsGoing(w, list, laps, sent, heard);
      var budgetReached, wrapUpAsked := false, false;
      while true
        invariant toolCallBudget == old(toolCallBudget)
        invariant Going(w, c, list, r, laps, sent, heard) && GoesOn(w, laps)
        invariant laps == [] ==> !wrapUpAsked
        invariant (wrapUpAsked <==> WrapUpAsked(laps)) && (budgetReached <==> wrapUpAsked)
        invariant |laps| <= (if toolCallBudget > 0 then toolCallBudget else 0) + 1
        decreases (if toolCallBudget > 0 then toolCallBudget else 0) + 1 - |laps|
      {
        if !budgetReached && r.toolCallCount >= toolCallBudget { budgetReached := true; }
        if budgetReached && wrapUpAsked { break; }
        var wrapUp := budgetReached;
        wrapUpAsked := wrapUp;
        ghost var lap, request, h;
        var more, early;
        ghost var r0, t := r, now;
        r, lap, more, early, request, h := OneRound(w, c, r, wrapUp);
        HeardGrows(w, laps, heard, r0, lap, h, r, t);
        LapsGrow(w, list, laps, sent, lap, request);
        laps, sent, heard := laps + [lap], sent + [request], heard + [h];
        if early { EarlyEnds(w, laps, heard, r); return; }
        if !more { break; }
      }
      ghost var r0 := r;
      TalliedCounts(w, laps, heard, r);
      r := Conclude(r, budgetReached, Results(heard));
      ConcludesEnds(w, laps, heard, r0, r);
    }

    lemma EarlyEnds(w: World, laps: seq<Lap>, heard: seq<Heard>, r: Result)
      requires Tallied(w, laps, heard, r) && laps != [] && (laps[|laps| - 1].end.Stopped? || laps[|laps| - 1].end.Abandoned?)
      ensures EndsAs(w, laps, heard, r)
    {}

    lemma TalliedCounts(w: World, laps: seq<Lap>, heard: seq<Heard>, r: Result)
      requires Tallied(w, laps, heard, r)
      ensures Plain(r) && r.rounds == |laps| && r.toolCallCount == |Results(heard)|
      ensures r.blocked == Refused(Results(heard)) && r.unaskable == Unaskable(Results(heard))
    {
      hide Refused, Unaskable, Results, Streamed;
    }

    lemma ConcludesEnds(w: World, laps: seq<Lap>, heard: seq<Heard>, r0: Result, r: Result)
      requires Tallied(w, laps, heard, r0) && laps != [] && Concludes(r0, WrapUpAsked(laps), Results(heard), r)
      requires !laps[|laps| - 1].end.Stopped? && !laps[|laps| - 1].end.Abandoned?
      ensures EndsAs(w, laps, heard, r)
      ensures r.rounds == r0.rounds && r.toolCallCount == r0.toolCallCount
    {
      hide Refused, Unaskable, Results, Streamed, WrapUpAsked;
    }

    lemma RoundAdds(w: World, r0: Result, r1: Result, end: Ending, h: Heard, r: Result)
      requires r1 == r0.(rounds := r0.rounds + 1, content := r0.content + h.reply.streamed,
        wasStreamed := r0.wasStreamed || h.reply.streamed != [], hasError := r0.hasError || end.Failed?)
      requires end.Answered? ==> h.reply.Replied?
      requires r == Counting(r1, h.ran).(content := if end.Answered? then FinalContent(w, h.reply) else r1.content)
      ensures RoundCounts(w, r0, end, h, r)
    {}

    lemma CountingNone(r: Result)
      ensures Counting(r, []) == r
    {}

    lemma BeginsGoing(w: World, list: seq<Entry>, laps: seq<Lap>, sent: seq<seq<ChatMessage>>, heard: seq<Heard>)
      requires laps == [] && sent == [] && heard == []
      ensures HeardInTurn(w, laps, heard) && Tallied(w, laps, heard, NO_RESULT)
      ensures Legal(toolCallBudget, laps) && AllNamed(w, laps) && BuiltInTurn(w, list, laps, sent)
      ensures Play(list, laps) == list && Ran(laps) == 0 && !WrapUpAsked(laps)
    {}

    /** What the turn comes to once its rounds are over. */
    method Conclude(r0: Result, budgetReached: bool, ghost ran: seq<ToolResult>) returns (r: Result)
      requires Plain(r0) && r0.toolCallCount == |ran| && r0.blocked == Refused(ran) && r0.unaskable == Unaskable(ran)
      ensures Concludes(r0, budgetReached, ran, r)
    {
      RefusedAll(ran);
      hide Refused, Unaskable;
      r := r0;
      if budgetReached && r.content == [] {
        r := r.(outcome := ToolBudgetReached, content := BUDGET_SPENT, hasError := true);
        return;
      }
      if r.content == [] && r.blocked > 0 && r.blocked == r.toolCallCount {
        r := r.(onlyBlocked := true, onlyUnaskable := r.unaskable == r.blocked, hasError := true);
        return;
      }
      if !r.hasError && r.content == [] && r.toolCallCount == 0 { r := r.(hasError := true); }
    }

    /** A turn: what was asked, the rounds, and the answer when there is one. */
    method Execute(w: World, c: Conversation, input: Text, fromPeer: Text)
        returns (r: Result, ghost laps: seq<Lap>, ghost sent: seq<seq<ChatMessage>>, ghost heard: seq<Heard>)
      requires Sound(c.graph.State()) && Obeys(w)
      modifies this, c.graph
      ensures Sound(c.graph.State()) && Legal(toolCallBudget, laps) && AllNamed(w, laps)
      ensures toolCallBudget == old(toolCallBudget) && r.toolCallCount == Ran(laps)
      ensures r.rounds == |laps| <= (if toolCallBudget > 0 then toolCallBudget else 0) + 1
      ensures HeardInTurn(w, laps, heard) && EndsAs(w, laps, heard, r)
      ensures var asked := Push(old(c.Listed()), Incoming(Said(USER_ROLE, input).(fromPeer := fromPeer), w.parse));
        && BuiltInTurn(w, asked, laps, sent)
        && c.Listed() == Concluded(w, Play(asked, laps), r)
    {
      hide Obeys, Legal, AllNamed, BuiltInTurn, Play, Ran, WrapUpAsked, Sound, Push, Entries, ChainOf, HeardInTurn, EndsAs;
      Say(w, c, Said(USER_ROLE, input).(fromPeer := fromPeer));
      r, laps, sent, heard := RunToolLoop(w, c);
      if r.hasError { return; }
      if r.content != [] {
        Say(w, c, Said(ASSISTANT_ROLE, r.content));
      }
    }
  }

  function Concluded(w: World, list: seq<Entry>, r: Result): seq<Entry> {
    if r.hasError || r.content == [] then list else Push(list, Incoming(Said(ASSISTANT_ROLE, r.content), w.parse))
  }

  /** The turn `Execute` begins can be taken back by the person who asked it, and by nobody when a peer did. */
  lemma ExecutedTurnRewinds(w: World, before: seq<Entry>, input: Text, fromPeer: Text)
    ensures var list := Push(before, Incoming(Said(USER_ROLE, input).(fromPeer := fromPeer), w.parse));
      && RewindVerdict(list, |list|) == (if fromPeer == [] then Rewound else FromPeer)
      && RewindList(list, |list|) == if fromPeer == [] then before else list
  {
    var m := Said(USER_ROLE, input).(fromPeer := fromPeer);
    IncomingKinds(m, w.parse);
    hide Incoming, Push;
    AskedIsRewound(before, Incoming(m, w.parse));
  }

  /** What a turn adds at its two ends: the question as asked, and the answer unless there was none or an error. */
  lemma TurnSays(w: World, before: seq<Entry>, input: Text, fromPeer: Text, laps: seq<Lap>, r: Result)
    ensures var asked := Push(before, Incoming(Said(USER_ROLE, input).(fromPeer := fromPeer), w.parse));
      |asked| == |before| + 1 && asked[..|before|] == before && asked[|before|].payload == User(Sanitized(input), fromPeer)
    ensures forall played: seq<Entry> ::
      var after := Concluded(w, played, r);
      if r.hasError || r.content == [] then after == played
      else |after| == |played| + 1 && after[..|played|] == played && after[|played|].payload == Assistant(Sanitized(r.content), [], [])
  {
    hide Incoming, Sanitized;
    IncomingKinds(Said(USER_ROLE, input).(fromPeer := fromPeer), w.parse);
    IncomingKinds(Said(ASSISTANT_ROLE, r.content), w.parse);
  }

  /** The request of a round begun with the budget used up ends in the message that asks for an answer, and no other is sent one. */
  lemma WrapUpIsSent(w: World, budget: int, list: seq<Entry>, laps: seq<Lap>, sent: seq<seq<ChatMessage>>, k: nat)
    requires Legal(budget, laps) && AllNamed(w, laps) && BuiltInTurn(w, list, laps, sent) && k < |sent|
    ensures laps[k].wrapUp.Some? <==> Ran(laps[..k]) >= budget
    ensures Ran(laps[..k]) >= budget ==> sent[k] != [] && var last := sent[k][|sent[k]| - 1];
      last.role == USER_ROLE && last.content == Sanitized(WRAP_UP) && last.fromPeer == []
  {
    hide Legal, Play, Ran, WrapUpAsked, IsLap, CutShort, BuiltFrom, Sanitized, Incoming, Asking, IsNamed;
    LegalAt(budget, laps, k);
    hide MayFollow;
    assert IsNamed(w, laps[k]);
    assert BuiltFrom(w, Asking(Play(list, laps[..k]), laps[k]), sent[k]);
    if Ran(laps[..k]) >= budget { WrapUpSent(w, Play(list, laps[..k]), laps[k], sent[k]); }
  }

  lemma WrapUpSent(w: World, list: seq<Entry>, lap: Lap, request: seq<ChatMessage>)
    requires IsNamed(w, lap) && lap.wrapUp.Some? && BuiltFrom(w, Asking(list, lap), request)
    ensures request != [] && var last := request[|request| - 1];
      last.role == USER_ROLE && last.content == Sanitized(WRAP_UP) && last.fromPeer == []
  {
    hide BuiltFrom, Sanitized, Incoming, Push;
    IncomingKinds(Said(USER_ROLE, WRAP_UP), w.parse);
    UserIsSent(w, list, WrapUpEntry(w), request);
  }

  lemma UserIsSent(w: World, list: seq<Entry>, e: Entry, request: seq<ChatMessage>)
    requires BuiltFrom(w, Push(list, e), request) && e.payload.User?
    ensures request != [] && var last := request[|request| - 1];
      last.role == USER_ROLE && last.content == e.payload.content && last.fromPeer == e.payload.fromPeer
  {
    var inputs: Inputs, chain: seq<Node> :| Entries(chain) == Push(list, e) && IsRequest(inputs, chain, w.receiptFor, request);
    hide IsRequest, Superseded;
    var i := |list|;
    assert |chain| == i + 1 && chain[i].payload == e.payload by {
      assert |Entries(chain)| == |chain| && Entries(chain)[i] == EntryOf(chain[i]);
    }
    hide Push, Entries;
    NoPageStays(chain, i);
    RequestSays(inputs, chain, w.receiptFor, request, i);
  }

  /** A conversation in order is in order after a whole turn, however it ends, just when every round of it was clean. */
  lemma TurnKeepsOrder(w: World, budget: int, before: seq<Entry>, input: Text, fromPeer: Text, laps: seq<Lap>, r: Result)
    requires Legal(budget, laps) && InOrder(before)
    ensures var asked := Push(before, Incoming(Said(USER_ROLE, input).(fromPeer := fromPeer), w.parse));
      InOrder(asked) && (InOrder(Concluded(w, Play(asked, laps), r)) <==> forall k | 0 <= k < |laps| :: CleanLap(laps[k]))
  {
    hide InOrder, CleanLap;
    var user := Incoming(Said(USER_ROLE, input).(fromPeer := fromPeer), w.parse);
    var asked := Push(before, user);
    OrderlyMeetsOrder(before);
    IncomingKinds(Said(USER_ROLE, input).(fromPeer := fromPeer), w.parse);
    PushOther(before, user);
    OrderlyMeetsOrder(asked);
    TurnOrder(budget, asked, laps);
    var played := Play(asked, laps);
    OrderlyMeetsOrder(Concluded(w, played, r));
    if !r.hasError && r.content != [] {
      var said := Said(ASSISTANT_ROLE, r.content);
      IncomingKinds(said, w.parse);
      PushOther(played, Incoming(said, w.parse));
    }
  }
}
