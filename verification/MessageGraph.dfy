/**
  The message graph in place (include/pu/session/graph.hpp). Each method is its function of
  `GraphSpec` or `GraphRuns`; `LinksResolve` is proved against `Resolves`.
*/
module MessageGraphs {
  import opened Sequences
  import opened Utf8
  import opened Messages
  import opened GraphSpec
  import opened GraphRuns

  datatype Mark = OnPath | KnownSound

  /** Where a path that goes on at `next` leads from its entry `i`. */
  function Onward(path: seq<MessageId>, next: MessageId, i: nat): MessageId {
    if i + 1 < |path| then path[i + 1] else next
  }

  /** Consecutive nodes of a parent path that goes on at `next`. */
  predicate Linked(nodes: Nodes, path: seq<MessageId>, next: MessageId) {
    forall i | 0 <= i < |path| :: path[i] != NO_ID && path[i] in nodes && nodes[path[i]].parent == Onward(path, next, i)
  }

  lemma GroundedByParent(nodes: Nodes, id: MessageId)
    requires id != NO_ID && id in nodes && Grounded(nodes, nodes[id].parent)
    ensures Grounded(nodes, id)
  {
    assert Ends(nodes, id, Depth(nodes, nodes[id].parent) + 1);
  }

  /** A path is grounded where it goes on is, each node one deeper than the next. */
  lemma {:induction false} PathGrounded(nodes: Nodes, path: seq<MessageId>, next: MessageId, i: nat)
    requires Linked(nodes, path, next) && i < |path|
    ensures Grounded(nodes, path[i]) <==> Grounded(nodes, next)
    ensures Grounded(nodes, next) ==> Depth(nodes, path[i]) == Depth(nodes, next) + |path| - i
    decreases |path| - i
  {
    var parent := nodes[path[i]].parent;
    assert parent == Onward(path, next, i);
    if i + 1 < |path| { PathGrounded(nodes, path, next, i + 1); }
    if Grounded(nodes, path[i]) { ParentGrounded(nodes, path[i]); }
    if Grounded(nodes, parent) {
      GroundedByParent(nodes, path[i]);
      ParentGrounded(nodes, path[i]);
    }
  }

  lemma LinkedNone(nodes: Nodes, next: MessageId)
    ensures Linked(nodes, [], next)
  {}

  lemma LinkedSnoc(nodes: Nodes, path: seq<MessageId>, next: MessageId)
    requires Linked(nodes, path, next) && next != NO_ID && next in nodes
    ensures Linked(nodes, path + [next], nodes[next].parent)
  {
    var longer := path + [next];
    forall i | 0 <= i < |longer|
      ensures longer[i] != NO_ID && longer[i] in nodes && nodes[longer[i]].parent == Onward(longer, nodes[next].parent, i)
    {
      if i < |path| { assert longer[i] == path[i] && Onward(path, next, i) == longer[i + 1]; }
    }
  }

  /** A walk that comes back to a node of its own path goes round for ever. */
  lemma CycleNotGrounded(nodes: Nodes, path: seq<MessageId>, next: MessageId, j: nat)
    requires j < |path| && path[j] == next && Linked(nodes, path, next)
    ensures !Grounded(nodes, next) && !Grounded(nodes, path[0])
  {
    hide Grounded, Linked, Ends;
    PathGrounded(nodes, path, next, 0);
    PathGrounded(nodes, path, next, j);
  }

  /** The nodes met before are known sound; those on the path are on the path; no other is coloured. */
  predicate Coloured(before: map<MessageId, Mark>, path: seq<MessageId>, marks: map<MessageId, Mark>) {
    && (forall id | id in marks :: id in before || id in path)
    && (forall id | id in before :: id in marks && marks[id] == KnownSound)
    && (forall id | id in path :: id !in before && id in marks && marks[id] == OnPath)
  }

  lemma ColourOne(before: map<MessageId, Mark>, path: seq<MessageId>, marks: map<MessageId, Mark>, id: MessageId)
    requires Coloured(before, path, marks) && id !in marks
    ensures Coloured(before, path + [id], marks[id := OnPath])
  {}

  lemma DanglingNotGrounded(nodes: Nodes, id: MessageId)
    requires id != NO_ID && id !in nodes
    ensures !Grounded(nodes, id)
  {}

  lemma {:induction false} CompleteCallAt(calls: seq<ToolCall>, callId: Text, i: nat)
    requires i < |calls| && calls[i].id == callId && forall k | 0 <= k < i :: calls[k].id != callId
    ensures CompleteCall(calls, callId) == calls[i := if calls[i].status == Pending then calls[i].(status := Completed) else calls[i]]
  {
    if i > 0 {
      var rest := calls[1..];
      forall k | 0 <= k < i - 1 ensures rest[k].id != callId { assert calls[k + 1].id != callId; }
      CompleteCallAt(rest, callId, i - 1);
      assert calls == [calls[0]] + rest;
    }
  }

  /** The records of one assistant turn: the first with the id is completed when it is pending. */
  method CompleteIn(calls: seq<ToolCall>, callId: Text) returns (found: bool, after: seq<ToolCall>)
    ensures found <==> exists k | 0 <= k < |calls| :: calls[k].id == callId
    ensures after == if found then CompleteCall(calls, callId) else calls
  {
    var i := 0;
    while i < |calls|
      invariant 0 <= i <= |calls|
      invariant forall k | 0 <= k < i :: calls[k].id != callId
    {
      if calls[i].id == callId {
        CompleteCallAt(calls, callId, i);
        found, after := true, calls;
        if calls[i].status == Pending { after := calls[i := calls[i].(status := Completed)]; }
        return;
      }
      i := i + 1;
    }
    return false, calls;
  }

  /** The calls of an interrupted turn as they are left, and those that were pending. */
  method SealPending(calls: seq<ToolCall>) returns (after: seq<ToolCall>, unrun: seq<ToolCall>)
    ensures after == SealCalls(calls) && unrun == Unrun(calls)
    ensures unrun == [] <==> !HasPending(calls)
  {
    after, unrun := calls, [];
    var i := 0;
    while i < |calls|
      invariant 0 <= i <= |calls| == |after|
      invariant forall k | 0 <= k < i :: after[k] == SealCalls(calls)[k]
      invariant forall k | i <= k < |calls| :: after[k] == calls[k]
      invariant unrun + Unrun(calls[i..]) == Unrun(calls)
      invariant unrun == [] <==> !exists k | 0 <= k < i :: calls[k].status == Pending
    {
      if after[i].status == Pending {
        after := after[i := after[i].(status := Interrupted)];
        SeqAssoc(unrun, [after[i]], Unrun(calls[i + 1..]));
        unrun := unrun + [after[i]];
      }
      assert calls[i..][1..] == calls[i + 1..];
      i := i + 1;
    }
    assert after == SealCalls(calls);
  }

  method Reaches(chain: seq<Node>, id: MessageId) returns (r: bool)
    ensures r <==> id in Ids(chain)
  {
    r := exists k | 0 <= k < |chain| :: chain[k].id == id;
  }

  class MessageGraph {
    var nodes: Nodes
    var leaf: MessageId

    function State(): Graph
      reads this
    {
      Graph(nodes, leaf)
    }

    constructor ()
      ensures State() == EMPTY && Sound(State())
    {
      nodes, leaf := map[], NO_ID;
    }

    /** The parent path of the leaf, oldest first; it ends because the links resolve. */
    method Chain() returns (chain: seq<Node>)
      requires Keyed(nodes) && Grounded(nodes, leaf)
      ensures chain == GraphSpec.Chain(nodes, leaf)
    {
      chain := [];
      var current := leaf;
      while current in nodes
        invariant Grounded(nodes, current)
        invariant GraphSpec.Chain(nodes, current) + chain == GraphSpec.Chain(nodes, leaf)
        decreases Depth(nodes, current)
      {
        ParentGrounded(nodes, current);
        chain := [nodes[current]] + chain;
        current := nodes[current].parent;
      }
    }

    method LeafHasUnfinishedToolCalls() returns (r: bool)
      requires Sound(State())
      ensures r <==> ChainOf(State()) != [] && Unfinished(ChainOf(State())[|ChainOf(State())| - 1].payload)
    {
      LastIsLeaf(State());
      r := leaf in nodes && Unfinished(nodes[leaf].payload);
    }

    /** The three-colour walk answers whether every parent path ends, with neither a dangling link nor a cycle. */
    method LinksResolve() returns (ok: bool)
      ensures ok <==> Resolves(nodes)
    {
      var marks: map<MessageId, Mark> := map[];
      var todo := nodes.Keys;
      while todo != {}
        invariant todo <= nodes.Keys
        invariant AllSound(marks)
        invariant forall id | id in nodes.Keys - todo :: Grounded(nodes, id)
        decreases |todo|
      {
        var entry :| entry in todo;
        todo := todo - {entry};
        ok, marks := WalkFrom(entry, marks);
        if !ok { return; }
      }
      ok := true;
    }

    ghost predicate AllSound(marks: map<MessageId, Mark>)
      reads this
    {
      forall id | id in marks :: id in nodes && marks[id] == KnownSound && Grounded(nodes, id)
    }

    ghost function Uncoloured(marks: map<MessageId, Mark>): nat
      reads this
    {
      |nodes.Keys - marks.Keys|
    }

    lemma UncolouredShrinks(marks: map<MessageId, Mark>, id: MessageId)
      requires id in nodes && id !in marks
      ensures Uncoloured(marks[id := OnPath]) < Uncoloured(marks)
    {
      assert nodes.Keys - marks[id := OnPath].Keys == nodes.Keys - marks.Keys - {id};
    }

    lemma ColourNone(before: map<MessageId, Mark>)
      requires AllSound(before)
      ensures Coloured(before, [], before)
    {}

    /** Why a walk stops where it stands. */
    lemma WalkStops(entry: MessageId, before: map<MessageId, Mark>, path: seq<MessageId>, current: MessageId, marks: map<MessageId, Mark>)
      requires AllSound(before) && Linked(nodes, path, current) && Coloured(before, path, marks)
      requires if path == [] then current == entry else path[0] == entry
      ensures current == NO_ID || (current in marks && marks[current] == KnownSound)
        ==> Grounded(nodes, entry) && forall i | 0 <= i < |path| :: Grounded(nodes, path[i])
      ensures current != NO_ID && (current !in nodes || (current in marks && marks[current] == OnPath)) ==> !Grounded(nodes, entry)
      ensures forall i | 0 <= i < |path| :: path[i] in nodes && path[i] in marks
    {
      hide Grounded;
      if path != [] {
        PathGrounded(nodes, path, current, 0);
      }
      if current == NO_ID || (current in marks && marks[current] == KnownSound) {
        EndOrKnown(current, before);
        forall i | 0 <= i < |path| ensures Grounded(nodes, path[i]) { PathGrounded(nodes, path, current, i); }
      } else if current !in nodes {
        DanglingNotGrounded(nodes, current);
      } else if current in marks {
        var j :| 0 <= j < |path| && path[j] == current;
        CycleNotGrounded(nodes, path, current, j);
      }
    }

    /** One walk up from an entry, colouring its path and then settling it. */
    method WalkFrom(entry: MessageId, before: map<MessageId, Mark>) returns (ok: bool, marks: map<MessageId, Mark>)
      requires entry in nodes && AllSound(before)
      ensures ok <==> Grounded(nodes, entry)
      ensures ok ==> AllSound(marks)
    {
      hide Grounded, Linked, AllSound, Coloured, Uncoloured;
      marks := before;
      var current, path := entry, [];
      LinkedNone(nodes, current);
      ColourNone(before);
      while current != NO_ID
        invariant Linked(nodes, path, current)
        invariant if path == [] then current == entry else path[0] == entry
        invariant Coloured(before, path, marks)
        decreases Uncoloured(marks)
      {
        WalkStops(entry, before, path, current, marks);
        if current !in nodes { return false, marks; }
        if current in marks && marks[current] == KnownSound { break; }
        if current in marks && marks[current] == OnPath { return false, marks; }
        LinkedSnoc(nodes, path, current);
        ColourOne(before, path, marks, current);
        UncolouredShrinks(marks, current);
        marks := marks[current := OnPath];
        path := path + [current];
        current := nodes[current].parent;
      }
      WalkStops(entry, before, path, current, marks);
      ok := true;
      var settled := Settle(path, marks);
      SettledSound(before, path, marks, settled);
      marks := settled;
    }

    lemma SettledSound(before: map<MessageId, Mark>, path: seq<MessageId>, marks: map<MessageId, Mark>, settled: map<MessageId, Mark>)
      requires AllSound(before) && Coloured(before, path, marks)
      requires forall i | 0 <= i < |path| :: Grounded(nodes, path[i])
      requires settled.Keys == marks.Keys
      requires forall id | id in marks :: settled[id] == if id in path then KnownSound else marks[id]
      requires forall i | 0 <= i < |path| :: path[i] in nodes
      ensures AllSound(settled)
    {
      hide Grounded;
      forall id | id in settled ensures id in nodes && settled[id] == KnownSound && Grounded(nodes, id) {
        assert id in marks;
      }
    }

    lemma EndOrKnown(current: MessageId, before: map<MessageId, Mark>)
      requires AllSound(before) && (current == NO_ID || current in before)
      ensures Grounded(nodes, current)
    {
      if current == NO_ID { assert Ends(nodes, current, 0); }
    }

    method Settle(path: seq<MessageId>, before: map<MessageId, Mark>) returns (marks: map<MessageId, Mark>)
      requires forall i | 0 <= i < |path| :: path[i] in before
      ensures marks.Keys == before.Keys
      ensures forall id | id in before :: marks[id] == if id in path then KnownSound else before[id]
    {
      marks := before;
      var k := 0;
      while k < |path|
        invariant 0 <= k <= |path|
        invariant marks.Keys == before.Keys
        invariant forall id | id in before :: marks[id] == if id in path[..k] then KnownSound else before[id]
      {
        marks := marks[path[k] := KnownSound];
        k := k + 1;
      }
    }

    // -------------------------------------------------------------- the operations

    /** A receipt names the call it answers; the first record met on the way up that made it is completed. */
    method CompleteFor(callId: Text)
      requires Grounded(nodes, leaf)
      modifies `nodes
      ensures nodes == if callId == [] then old(nodes) else CompleteAt(old(nodes), leaf, callId)
    {
      if callId == [] { return; }
      var id := leaf;
      while id != NO_ID
        invariant nodes == old(nodes) && Grounded(nodes, id)
        invariant CompleteAt(nodes, id, callId) == CompleteAt(nodes, leaf, callId)
        decreases Depth(nodes, id)
      {
        ParentGrounded(nodes, id);
        var n := nodes[id];
        if n.payload.Assistant? {
          var found, calls := CompleteIn(n.payload.calls, callId);
          if found {
            nodes := nodes[id := n.(payload := n.payload.(calls := calls))];
            return;
          }
        }
        id := n.parent;
      }
    }

    /** Only what the leaf's chain reaches is kept. */
    method DropUnreachable()
      requires Keyed(nodes) && Grounded(nodes, leaf)
      modifies `nodes
      ensures nodes == Keep(old(nodes), leaf)
    {
      var reachable := Chain();
      var todo := nodes.Keys;
      while todo != {}
        invariant todo <= nodes.Keys <= old(nodes).Keys
        invariant forall id | id in old(nodes).Keys :: id in nodes <==> id in todo || id in Ids(reachable)
        invariant forall id | id in nodes :: nodes[id] == old(nodes)[id]
        decreases |todo|
      {
        var id :| id in todo;
        todo := todo - {id};
        var kept := Reaches(reachable, id);
        if !kept { nodes := nodes - {id}; }
      }
    }

    /** The new message after the leaf, under an id no message has. */
    method AppendAfterLeaf(payload: Payload, timestamp: Text, id: MessageId)
      requires Sound(State()) && Fresh(State(), id)
      modifies this
      ensures State() == Appended(old(State()), Entry(timestamp, payload), id) && Sound(State())
    {
      ghost var (before, e) := (State(), Entry(timestamp, payload));
      FiledIsList(before, e, id);
      AppendPushes(before, e, id);
      Add(Node(id, timestamp, payload, leaf));
      leaf := id;
      DropUnreachable();
    }

    method Add(node: Node)
      requires Sound(State()) && Fresh(State(), node.id) && node.parent == leaf
      modifies `nodes
      ensures nodes == Filed(old(State()), EntryOf(node), node.id)
    {
      LeafGrounded(State());
      ghost var after := WithNode(State(), EntryOf(node), node.id);
      LinksKeptGrounded(nodes, after, leaf);
      nodes := nodes[node.id := node];
      assert nodes == after;
      if node.payload.Receipt? { CompleteFor(node.payload.callId); }
    }

    /** Nothing is forgotten until the next append. */
    method RewindTo(id: MessageId) returns (ok: bool)
      requires Sound(State())
      modifies `leaf
      ensures ok <==> id == NO_ID || id in nodes
      ensures State() == if ok then Graph(nodes, id) else old(State())
      ensures Sound(State())
    {
      if id != NO_ID && id !in nodes { return false; }
      leaf := id;
      ok := true;
    }

    /** A turn the user cut short: each pending call is interrupted and answered with the cancelled receipt. */
    method SealInterruptedToolCalls(ids: seq<MessageId>)
      requires Sound(State())
      requires LeafUnfinished(State()) ==> FreshIds(State(), ids) && |ids| == |Unrun(nodes[leaf].payload.calls)|
      modifies this
      ensures State() == Sealed(old(State()), ids) && Sound(State())
    {
      ghost var before := State();
      SealIsList(before, ids);
      if leaf !in nodes || !nodes[leaf].payload.Assistant? { return; }
      var n := nodes[leaf];
      var calls, unrun := SealPending(n.payload.calls);
      if unrun == [] { return; }
      SealedLeafIsList(before);
      nodes := nodes[leaf := n.(payload := n.payload.(calls := calls))];
      assert State() == SealedLeaf(before);
      AnswerAll(unrun, ids);
    }

    lemma AnswerOne(g: Graph, unrun: seq<ToolCall>, ids: seq<MessageId>, i: nat)
      requires i < |unrun| == |ids| && Sound(g) && FreshIds(g, ids[i..])
      ensures var e := CancelledReceipt(unrun[i]);
        && Fresh(g, ids[i]) && e == Entry(e.timestamp, e.payload)
        && Sound(Appended(g, e, ids[i])) && FreshIds(Appended(g, e, ids[i]), ids[i + 1..])
        && AppendedAll(g, Receipts(unrun[i..]), ids[i..])
          == AppendedAll(Appended(g, e, ids[i]), Receipts(unrun[i + 1..]), ids[i + 1..])
    {
      hide Sound, Appended, FreshIds;
      var (calls, rest) := (unrun[i..], ids[i..]);
      assert Fresh(g, rest[0]) by { FreshFirst(g, rest); }
      FreshAfter(g, CancelledReceipt(unrun[i]), rest);
      assert Receipts(calls)[0] == CancelledReceipt(unrun[i]) && Receipts(calls)[1..] == Receipts(unrun[i + 1..]);
      assert rest[1..] == ids[i + 1..];
    }

    lemma AnswerNone(g: Graph, calls: seq<ToolCall>, ids: seq<MessageId>)
      requires calls == [] && ids == [] && Sound(g) && FreshIds(g, ids)
      ensures AppendedAll(g, Receipts(calls), ids) == g
    {}

    lemma FreshFirst(g: Graph, ids: seq<MessageId>)
      requires ids != [] && FreshIds(g, ids)
      ensures Fresh(g, ids[0])
    {}

    method AnswerAll(unrun: seq<ToolCall>, ids: seq<MessageId>)
      requires Sound(State()) && |unrun| == |ids| && FreshIds(State(), ids)
      modifies this
      ensures Sound(State()) && State() == AppendedAll(old(State()), Receipts(unrun), ids)
    {
      hide AppendedAll, Appended, FreshIds, Sound, CancelledReceipt;
      ghost var before := State();
      assert unrun[0..] == unrun && ids[0..] == ids;
      var i := 0;
      while i < |unrun|
        invariant 0 <= i <= |unrun|
        invariant Sound(State()) && FreshIds(State(), ids[i..])
        invariant AppendedAll(State(), Receipts(unrun[i..]), ids[i..]) == AppendedAll(before, Receipts(unrun), ids)
      {
        AnswerOne(State(), unrun, ids, i);
        var receipt := CancelledReceipt(unrun[i]);
        AppendAfterLeaf(receipt.payload, receipt.timestamp, ids[i]);
        i := i + 1;
      }
      AnswerNone(State(), unrun[i..], ids[i..]);
    }
  }
}
