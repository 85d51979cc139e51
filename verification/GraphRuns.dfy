/**
  Sealing an interrupted turn, rewinding a conversation, and whole runs of a message graph
  (include/pu/session/graph.hpp, src/session/session.cpp): the graph is a list.
*/
module GraphRuns {
  import opened Sequences
  import opened Wrappers
  import opened Utf8
  import opened Messages
  import opened GraphSpec

  // ---------------------------------------------------------------- several appends

  /** New ids: none empty, none in the graph, no two the same. */
  predicate FreshIds(g: Graph, ids: seq<MessageId>) {
    && (forall i | 0 <= i < |ids| :: Fresh(g, ids[i]))
    && (forall i, j | 0 <= i < j < |ids| :: ids[i] != ids[j])
  }

  lemma FreshAfter(g: Graph, e: Entry, ids: seq<MessageId>)
    requires Sound(g) && ids != [] && FreshIds(g, ids)
    ensures Sound(Appended(g, e, ids[0])) && FreshIds(Appended(g, e, ids[0]), ids[1..])
  {
    AppendPushes(g, e, ids[0]);
    LeafGrounded(g);
    OnChainInMap(g.nodes, g.leaf);
  }

  ghost function AppendedAll(g: Graph, es: seq<Entry>, ids: seq<MessageId>): Graph
    requires Sound(g) && |es| == |ids| && FreshIds(g, ids)
    decreases |es|
  {
    if es == [] then g
    else
      FreshAfter(g, es[0], ids);
      AppendedAll(Appended(g, es[0], ids[0]), es[1..], ids[1..])
  }

  function PushAll(list: seq<Entry>, es: seq<Entry>): seq<Entry>
    decreases |es|
  {
    if es == [] then list else PushAll(Push(list, es[0]), es[1..])
  }

  lemma {:induction false} AppendAllPushes(g: Graph, es: seq<Entry>, ids: seq<MessageId>)
    requires Sound(g) && |es| == |ids| && FreshIds(g, ids)
    ensures Sound(AppendedAll(g, es, ids))
    ensures Entries(ChainOf(AppendedAll(g, es, ids))) == PushAll(Entries(ChainOf(g)), es)
    decreases |es|
  {
    if es != [] {
      FreshAfter(g, es[0], ids);
      AppendPushes(g, es[0], ids[0]);
      AppendAllPushes(Appended(g, es[0], ids[0]), es[1..], ids[1..]);
    }
  }

  // ---------------------------------------------------------------- sealing

  function SealCalls(calls: seq<ToolCall>): seq<ToolCall> {
    seq(|calls|, i requires 0 <= i < |calls| =>
      if calls[i].status == Pending then calls[i].(status := Interrupted) else calls[i])
  }

  /** The calls that were pending, in order, each as it is sealed. */
  function Unrun(calls: seq<ToolCall>): seq<ToolCall> {
    if calls == [] then []
    else (if calls[0].status == Pending then [calls[0].(status := Interrupted)] else []) + Unrun(calls[1..])
  }

  function CancelledReceipt(c: ToolCall): Entry {
    Entry([], Receipt(c.id, c.name, CANCELLED_RECEIPT, None))
  }

  function Receipts(calls: seq<ToolCall>): seq<Entry> {
    seq(|calls|, i requires 0 <= i < |calls| => CancelledReceipt(calls[i]))
  }

  /** Sealing a list: an unfinished last entry has its pending calls interrupted and answered. */
  function SealList(list: seq<Entry>): seq<Entry> {
    if list == [] || !Unfinished(list[|list| - 1].payload) then list
    else
      var last := list[|list| - 1];
      list[..|list| - 1] + [last.(payload := last.payload.(calls := SealCalls(last.payload.calls)))]
        + Receipts(Unrun(last.payload.calls))
  }

  ghost function SealedLeaf(g: Graph): Graph
    requires g.leaf in g.nodes && g.nodes[g.leaf].payload.Assistant?
  {
    var n := g.nodes[g.leaf];
    Graph(g.nodes[g.leaf := n.(payload := n.payload.(calls := SealCalls(n.payload.calls)))], g.leaf)
  }

  predicate LeafUnfinished(g: Graph) { g.leaf in g.nodes && Unfinished(g.nodes[g.leaf].payload) }

  lemma SealedLeafIsList(g: Graph)
    requires Sound(g) && g.leaf in g.nodes && g.nodes[g.leaf].payload.Assistant?
    ensures var after := SealedLeaf(g);
      && Sound(after) && after.nodes.Keys == g.nodes.Keys
      && ChainOf(g) != [] && ChainOf(g)[|ChainOf(g)| - 1] == g.nodes[g.leaf]
      && ChainOf(after) == ChainOf(g)[..|ChainOf(g)| - 1] + [after.nodes[g.leaf]]
  {
    var after := SealedLeaf(g);
    forall i | i in after.nodes ensures Grounded(after.nodes, i) { LinksKeptGrounded(g.nodes, after.nodes, i); }
    NotOnOwnPath(g.nodes, g.leaf);
    ChainUntouched(g.nodes, after.nodes, g.nodes[g.leaf].parent, g.leaf);
    ParentGrounded(after.nodes, g.leaf);
  }

  ghost function Sealed(g: Graph, ids: seq<MessageId>): Graph
    requires Sound(g) && LeafUnfinished(g) ==> FreshIds(g, ids) && |ids| == |Unrun(g.nodes[g.leaf].payload.calls)|
    requires Sound(g)
  {
    if LeafUnfinished(g) then
      SealedLeafIsList(g);
      AppendedAll(SealedLeaf(g), Receipts(Unrun(g.nodes[g.leaf].payload.calls)), ids)
    else g
  }

  lemma {:induction false} UnrunAreCalls(calls: seq<ToolCall>, k: nat) returns (j: nat)
    requires k < |Unrun(calls)|
    ensures j < |calls| && calls[j].id == Unrun(calls)[k].id
  {
    var skipped := if calls[0].status == Pending then 1 else 0;
    if k < skipped {
      j := 0;
    } else {
      j := UnrunAreCalls(calls[1..], k - skipped);
      j := j + 1;
    }
  }

  lemma {:induction false} CompleteNothingPending(calls: seq<ToolCall>, callId: Text)
    requires !HasPending(calls)
    ensures CompleteCall(calls, callId) == calls
  {
    if calls != [] && calls[0].id != callId {
      forall k | 0 <= k < |calls[1..]| ensures calls[1..][k].status != Pending { assert calls[k + 1].status != Pending; }
      CompleteNothingPending(calls[1..], callId);
    }
  }

  /** A receipt for a call already sealed changes no record. */
  lemma {:induction false} SealedStays(before: seq<Entry>, last: Entry, receipts: seq<Entry>, callId: Text)
    requires HasCall(last.payload, callId) && !HasPending(last.payload.calls)
    requires forall k | 0 <= k < |receipts| :: receipts[k].payload.Receipt?
    ensures CompleteEntries(before + [last] + receipts, callId) == before + [last] + receipts
    decreases |receipts|
  {
    if receipts == [] {
      assert before + [last] + receipts == before + [last];
      CompleteSnoc(before, last, callId);
      CompleteNothingPending(last.payload.calls, callId);
    } else {
      var (front, e) := (receipts[..|receipts| - 1], receipts[|receipts| - 1]);
      assert front + [e] == receipts;
      SeqAssoc(before + [last], front, [e]);
      SealedStays(before, last, front, callId);
      hide CompleteEntries;
      CompleteSnoc(before + [last] + front, e, callId);
    }
  }

  lemma {:induction false} PushReceipts(before: seq<Entry>, last: Entry, done: seq<Entry>, calls: seq<ToolCall>)
    requires last.payload.Assistant? && !HasPending(last.payload.calls)
    requires forall k | 0 <= k < |done| :: done[k].payload.Receipt?
    requires forall k | 0 <= k < |calls| :: HasCall(last.payload, calls[k].id)
    ensures PushAll(before + [last] + done, Receipts(calls)) == before + [last] + done + Receipts(calls)
    decreases |calls|
  {
    if calls == [] {
      assert before + [last] + done + Receipts(calls) == before + [last] + done;
    } else {
      var e := CancelledReceipt(calls[0]);
      assert Receipts(calls)[0] == e && Receipts(calls)[1..] == Receipts(calls[1..]);
      SealedStays(before, last, done, calls[0].id);
      SeqAssoc(before + [last], done, [e]);
      PushReceipts(before, last, done + [e], calls[1..]);
      SeqAssoc(before + [last] + done, [e], Receipts(calls[1..]));
      assert [e] + Receipts(calls[1..]) == Receipts(calls);
    }
  }

  /** Sealing a sound graph seals its list. */
  lemma SealIsList(g: Graph, ids: seq<MessageId>)
    requires Sound(g)
    requires LeafUnfinished(g) ==> FreshIds(g, ids) && |ids| == |Unrun(g.nodes[g.leaf].payload.calls)|
    ensures Sound(Sealed(g, ids)) && Entries(ChainOf(Sealed(g, ids))) == SealList(Entries(ChainOf(g)))
  {
    LastIsLeaf(g);
    if LeafUnfinished(g) {
      SealedLeafIsList(g);
      var calls := g.nodes[g.leaf].payload.calls;
      var after := SealedLeaf(g);
      var last := EntryOf(after.nodes[g.leaf]);
      var before := Entries(ChainOf(g))[..|ChainOf(g)| - 1];
      SealedAnswer(last.payload, calls);
      assert Entries(ChainOf(after)) == before + [last];
      hide HasCall, HasPending, SealCalls, Unrun, SealedLeaf, Receipts;
      AppendAllPushes(after, Receipts(Unrun(calls)), ids);
      PushReceipts(before, last, [], Unrun(calls));
      assert before + [last] + [] == before + [last];
    }
  }

  /** The sealed answer still has every call that was pending, and none of them pending. */
  lemma SealedAnswer(p: Payload, calls: seq<ToolCall>)
    requires p.Assistant? && p.calls == SealCalls(calls)
    ensures !HasPending(p.calls) && |Receipts(Unrun(calls))| == |Unrun(calls)|
    ensures forall k | 0 <= k < |Unrun(calls)| :: HasCall(p, Unrun(calls)[k].id)
  {
    forall k | 0 <= k < |Unrun(calls)| ensures HasCall(p, Unrun(calls)[k].id) {
      var j := UnrunAreCalls(calls, k);
      assert p.calls[j].id == Unrun(calls)[k].id;
    }
  }

  /** The last entry of the list is the leaf. */
  lemma LastIsLeaf(g: Graph)
    requires Sound(g)
    ensures ChainOf(g) == [] <==> g.leaf == NO_ID
    ensures g.leaf != NO_ID ==> g.leaf in g.nodes && ChainOf(g)[|ChainOf(g)| - 1] == g.nodes[g.leaf]
    ensures LeafUnfinished(g) <==> ChainOf(g) != [] && Unfinished(ChainOf(g)[|ChainOf(g)| - 1].payload)
  {
    LeafGrounded(g);
    if g.leaf != NO_ID { ParentGrounded(g.nodes, g.leaf); }
  }

  // ---------------------------------------------------------------- rewinding

  datatype Rewind = FromPeer | StillPending | OutOfRange | Rewound

  predicate TurnFromPeer(list: seq<Entry>, turn: nat) {
    1 <= turn <= |list| && list[turn - 1].payload.User? && list[turn - 1].payload.fromPeer != []
  }

  /** What a rewind before a turn answers, in the order the checks are made. */
  function RewindVerdict(list: seq<Entry>, turn: nat): Rewind {
    if TurnFromPeer(list, turn) then FromPeer
    else if list != [] && Unfinished(list[|list| - 1].payload) then StillPending
    else if turn < 1 || turn > |list| then OutOfRange
    else Rewound
  }

  /**
    A rewind before turn `t` is made exactly when there is such a turn, no call of the last message is pending,
    and the turn is not one a peer asked; it is refused as a peer's exactly when it is.
  */
  lemma RewindSays(list: seq<Entry>, turn: nat)
    ensures RewindVerdict(list, turn) == Rewound <==>
      && 1 <= turn <= |list|
      && !(match list[|list| - 1].payload
           case Assistant(_, _, calls) => exists k | 0 <= k < |calls| :: calls[k].status == Pending
           case _ => false)
      && (match list[turn - 1].payload case User(_, fromPeer) => fromPeer == [] case _ => true)
    ensures RewindVerdict(list, turn) == FromPeer <==>
      && 1 <= turn <= |list|
      && (match list[turn - 1].payload case User(_, fromPeer) => fromPeer != [] case _ => false)
    ensures list != [] && !(1 <= turn <= |list|) ==>
      (RewindVerdict(list, turn) == StillPending <==>
        match list[|list| - 1].payload
        case Assistant(_, _, calls) => exists k | 0 <= k < |calls| :: calls[k].status == Pending
        case _ => false)
  {}

  /** A message just asked can be taken back exactly when no peer asked it, and what is left is what was before. */
  lemma AskedIsRewound(before: seq<Entry>, e: Entry)
    requires e.payload.User?
    ensures var list := Push(before, e);
      && |list| == |before| + 1
      && RewindVerdict(list, |list|) == (if e.payload.fromPeer == [] then Rewound else FromPeer)
      && RewindList(list, |list|) == if e.payload.fromPeer == [] then before else list
  {}

  function RewindList(list: seq<Entry>, turn: nat): seq<Entry> {
    if RewindVerdict(list, turn) == Rewound then list[..turn - 1] else list
  }

  ghost function RewoundBefore(g: Graph, turn: nat): Graph
    requires Sound(g)
  {
    var chain := ChainOf(g);
    if RewindVerdict(Entries(chain), turn) == Rewound then
      Graph(g.nodes, if turn == 1 then NO_ID else chain[turn - 2].id)
    else g
  }

  /** A rewind before turn `t` leaves exactly the first `t - 1` entries, or refuses and leaves all. */
  lemma RewindIsList(g: Graph, turn: nat)
    requires Sound(g)
    ensures Sound(RewoundBefore(g, turn))
    ensures Entries(ChainOf(RewoundBefore(g, turn))) == RewindList(Entries(ChainOf(g)), turn)
  {
    if RewindVerdict(Entries(ChainOf(g)), turn) == Rewound {
      RewindTruncates(g, turn - 1);
    }
  }

  // ---------------------------------------------------------------- runs

  datatype Op =
    | Append(e: Entry, id: MessageId)
    | RewindBefore(turn: nat)
    | Seal(ids: seq<MessageId>)

  /** The ids an operation files are new to the graph it is applied to. */
  ghost predicate CanApply(g: Graph, op: Op) {
    match op
    case Append(_, id) => Fresh(g, id)
    case RewindBefore(_) => true
    case Seal(ids) => LeafUnfinished(g) ==> FreshIds(g, ids) && |ids| == |Unrun(g.nodes[g.leaf].payload.calls)|
  }

  ghost function Applied(g: Graph, op: Op): Graph
    requires Sound(g) && CanApply(g, op)
  {
    match op
    case Append(e, id) => Appended(g, e, id)
    case RewindBefore(turn) => RewoundBefore(g, turn)
    case Seal(ids) => Sealed(g, ids)
  }

  function ApplyList(list: seq<Entry>, op: Op): seq<Entry> {
    match op
    case Append(e, _) => Push(list, e)
    case RewindBefore(turn) => RewindList(list, turn)
    case Seal(_) => SealList(list)
  }

  function RunList(list: seq<Entry>, ops: seq<Op>): seq<Entry>
    decreases |ops|
  {
    if ops == [] then list else RunList(ApplyList(list, ops[0]), ops[1..])
  }

  lemma StepIsList(g: Graph, op: Op)
    requires Sound(g) && CanApply(g, op)
    ensures Sound(Applied(g, op)) && Entries(ChainOf(Applied(g, op))) == ApplyList(Entries(ChainOf(g)), op)
  {
    match op
    case Append(e, id) => AppendPushes(g, e, id);
    case RewindBefore(turn) => RewindIsList(g, turn);
    case Seal(ids) => SealIsList(g, ids);
  }

  /** A run files new ids at every step. */
  ghost predicate Runs(g: Graph, ops: seq<Op>)
    requires Sound(g)
    decreases |ops|
  {
    ops == [] || (CanApply(g, ops[0]) && (StepIsList(g, ops[0]); Runs(Applied(g, ops[0]), ops[1..])))
  }

  ghost function Run(g: Graph, ops: seq<Op>): Graph
    requires Sound(g) && Runs(g, ops)
    decreases |ops|
  {
    if ops == [] then g
    else
      StepIsList(g, ops[0]);
      Run(Applied(g, ops[0]), ops[1..])
  }

  /**
    The graph refines a list: after any run of appends, rewinds and seals the graph is sound, and its
    chain is the list the same run builds by push, truncate and seal.
  */
  lemma {:induction false} RunIsList(g: Graph, ops: seq<Op>)
    requires Sound(g) && Runs(g, ops)
    ensures Sound(Run(g, ops)) && Entries(ChainOf(Run(g, ops))) == RunList(Entries(ChainOf(g)), ops)
    decreases |ops|
  {
    if ops != [] {
      StepIsList(g, ops[0]);
      RunIsList(Applied(g, ops[0]), ops[1..]);
    }
  }

  /** A graph begun empty is sound and its list is empty. */
  lemma EmptyIsSound()
    ensures Sound(EMPTY) && ChainOf(EMPTY) == []
  {}

  /** A conversation begun empty is the list its run builds from nothing. */
  lemma RunFromEmpty(ops: seq<Op>)
    requires Runs(EMPTY, ops)
    ensures Sound(Run(EMPTY, ops)) && Entries(ChainOf(Run(EMPTY, ops))) == RunList([], ops)
  {
    EmptyIsSound();
    RunIsList(EMPTY, ops);
    assert Entries(ChainOf(EMPTY)) == [];
  }
}
