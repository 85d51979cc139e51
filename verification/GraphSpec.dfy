/**
  The message graph as a value: nodes linked to their parents, and a leaf (include/pu/session/graph.hpp).

  `Ends` says a parent path reaches the empty id; `Chain` is the list that path spells. The lemmas say
  that the graph's operations are operations on that list.
*/
module GraphSpec {
  import opened Wrappers
  import opened Utf8
  import opened Messages

  type Nodes = map<MessageId, Node>

  datatype Graph = Graph(nodes: Nodes, leaf: MessageId)

  const EMPTY := Graph(map[], NO_ID)

  // ---------------------------------------------------------------- paths

  /** Following parents from `id` reaches the empty id after exactly `k` nodes. */
  predicate Ends(nodes: Nodes, id: MessageId, k: nat)
    decreases k
  {
    if id == NO_ID then k == 0
    else k > 0 && id in nodes && Ends(nodes, nodes[id].parent, k - 1)
  }

  /** The parent path from `id` reaches the empty id through existing nodes. */
  ghost predicate Grounded(nodes: Nodes, id: MessageId) { exists k: nat :: Ends(nodes, id, k) }

  /** Every node's parent path does: no dangling link, no cycle. */
  ghost predicate Resolves(nodes: Nodes) { forall id | id in nodes :: Grounded(nodes, id) }

  lemma {:induction false} EndsUnique(nodes: Nodes, id: MessageId, j: nat, k: nat)
    requires Ends(nodes, id, j) && Ends(nodes, id, k)
    ensures j == k
    decreases j
  {
    if id != NO_ID { EndsUnique(nodes, nodes[id].parent, j - 1, k - 1); }
  }

  ghost function Depth(nodes: Nodes, id: MessageId): (k: nat)
    requires Grounded(nodes, id)
    ensures Ends(nodes, id, k)
    ensures forall j: nat :: Ends(nodes, id, j) ==> j == k
  {
    var k: nat :| Ends(nodes, id, k);
    assert forall j: nat :: Ends(nodes, id, j) ==> j == k by {
      forall j: nat | Ends(nodes, id, j) ensures j == k { EndsUnique(nodes, id, j, k); }
    }
    k
  }

  lemma ParentGrounded(nodes: Nodes, id: MessageId)
    requires Grounded(nodes, id) && id != NO_ID
    ensures id in nodes && Grounded(nodes, nodes[id].parent)
    ensures Depth(nodes, id) == Depth(nodes, nodes[id].parent) + 1
  {
    assert Ends(nodes, nodes[id].parent, Depth(nodes, id) - 1);
  }

  /** The nodes from the first to `id`, oldest first. */
  ghost function Chain(nodes: Nodes, id: MessageId): (chain: seq<Node>)
    requires Grounded(nodes, id)
    ensures |chain| == Depth(nodes, id)
    decreases Depth(nodes, id)
  {
    if id == NO_ID then []
    else
      ParentGrounded(nodes, id);
      Chain(nodes, nodes[id].parent) + [nodes[id]]
  }

  ghost function Ids(chain: seq<Node>): set<MessageId> { set n | n in chain :: n.id }

  /** Nodes are filed under their own ids, none of them empty; the leaf exists; every link resolves. */
  ghost predicate Sound(g: Graph) {
    && Keyed(g.nodes)
    && (g.leaf == NO_ID || g.leaf in g.nodes)
    && Resolves(g.nodes)
  }

  predicate Keyed(nodes: Nodes) { NO_ID !in nodes && forall id | id in nodes :: nodes[id].id == id }

  lemma LeafGrounded(g: Graph)
    requires Sound(g)
    ensures Grounded(g.nodes, g.leaf)
  {
    if g.leaf == NO_ID { assert Ends(g.nodes, g.leaf, 0); }
  }

  ghost function ChainOf(g: Graph): seq<Node>
    requires Sound(g)
  {
    LeafGrounded(g);
    Chain(g.nodes, g.leaf)
  }

  /** Entry `i` of a chain is a node of the graph, the `i`th from the start, and the chain up to it is its own. */
  lemma {:induction false} ChainAt(nodes: Nodes, id: MessageId, i: nat)
    requires Keyed(nodes) && Grounded(nodes, id) && i < |Chain(nodes, id)|
    ensures var n := Chain(nodes, id)[i];
      && n.id in nodes && nodes[n.id] == n && Grounded(nodes, n.id)
      && Depth(nodes, n.id) == i + 1 && Chain(nodes, n.id) == Chain(nodes, id)[..i + 1]
    decreases Depth(nodes, id)
  {
    if id != NO_ID {
      ParentGrounded(nodes, id);
      var parent := nodes[id].parent;
      if i < |Chain(nodes, parent)| {
        ChainAt(nodes, parent, i);
        assert Chain(nodes, id)[..i + 1] == Chain(nodes, parent)[..i + 1];
      } else {
        assert Chain(nodes, id)[..i + 1] == Chain(nodes, id);
      }
    }
  }

  /** No id comes twice on a chain. */
  lemma ChainDistinct(nodes: Nodes, id: MessageId, i: nat, j: nat)
    requires Keyed(nodes) && Grounded(nodes, id) && i < j < |Chain(nodes, id)|
    ensures Chain(nodes, id)[i].id != Chain(nodes, id)[j].id
  {
    ChainAt(nodes, id, i);
    ChainAt(nodes, id, j);
  }

  /** The chain links each entry to the one before it. */
  lemma ChainLinks(nodes: Nodes, id: MessageId, i: nat)
    requires Keyed(nodes) && Grounded(nodes, id) && i < |Chain(nodes, id)|
    ensures Chain(nodes, id)[i].parent == if i == 0 then NO_ID else Chain(nodes, id)[i - 1].id
  {
    ChainAt(nodes, id, i);
    var n := Chain(nodes, id)[i];
    ParentGrounded(nodes, n.id);
    if i > 0 {
      ChainAt(nodes, id, i - 1);
      assert Chain(nodes, n.parent) == Chain(nodes, n.id)[..i];
      assert Chain(nodes, n.parent)[i - 1] == Chain(nodes, id)[i - 1];
      ChainEndsIn(nodes, n.parent);
    }
  }

  lemma ChainEndsIn(nodes: Nodes, id: MessageId)
    requires Keyed(nodes) && Grounded(nodes, id) && Chain(nodes, id) != []
    ensures id != NO_ID && Chain(nodes, id)[|Chain(nodes, id)| - 1].id == id
  {}

  // ---------------------------------------------------------------- lists

  /** What a list remembers of a node. */
  datatype Entry = Entry(timestamp: Text, payload: Payload)

  function EntryOf(n: Node): Entry { Entry(n.timestamp, n.payload) }

  function Entries(chain: seq<Node>): seq<Entry> {
    seq(|chain|, i requires 0 <= i < |chain| => EntryOf(chain[i]))
  }

  predicate HasCall(p: Payload, callId: Text) {
    p.Assistant? && exists k | 0 <= k < |p.calls| :: p.calls[k].id == callId
  }

  /** The first record with the id, when it is pending, becomes completed. */
  function CompleteCall(calls: seq<ToolCall>, callId: Text): seq<ToolCall> {
    if calls == [] then []
    else if calls[0].id == callId then
      [if calls[0].status == Pending then calls[0].(status := Completed) else calls[0]] + calls[1..]
    else [calls[0]] + CompleteCall(calls[1..], callId)
  }

  function CompletePayload(p: Payload, callId: Text): Payload
    requires p.Assistant?
  {
    p.(calls := CompleteCall(p.calls, callId))
  }

  /** The last assistant entry that made the call has its record completed. */
  function CompleteEntries(list: seq<Entry>, callId: Text): seq<Entry> {
    if list == [] then []
    else
      var (before, last) := (list[..|list| - 1], list[|list| - 1]);
      if HasCall(last.payload, callId) then before + [last.(payload := CompletePayload(last.payload, callId))]
      else CompleteEntries(before, callId) + [last]
  }

  /** Appending to a list: a receipt first completes the call it answers. */
  function Push(list: seq<Entry>, e: Entry): seq<Entry> {
    (if e.payload.Receipt? && e.payload.callId != [] then CompleteEntries(list, e.payload.callId) else list) + [e]
  }

  // ---------------------------------------------------------------- operations on the map

  /** The walk `CompleteFor` makes: from `id` upwards to the first assistant that made the call. */
  ghost function CompleteAt(nodes: Nodes, id: MessageId, callId: Text): Nodes
    requires Grounded(nodes, id)
    decreases Depth(nodes, id)
  {
    if id == NO_ID then nodes
    else
      ParentGrounded(nodes, id);
      var n := nodes[id];
      if HasCall(n.payload, callId) then nodes[id := n.(payload := CompletePayload(n.payload, callId))]
      else CompleteAt(nodes, n.parent, callId)
  }

  /** Only the nodes on the chain to `id`. */
  ghost function Keep(nodes: Nodes, id: MessageId): Nodes
    requires Grounded(nodes, id)
  {
    map i | i in nodes && i in Ids(Chain(nodes, id)) :: nodes[i]
  }

  function WithNode(g: Graph, e: Entry, id: MessageId): Nodes {
    g.nodes[id := Node(id, e.timestamp, e.payload, g.leaf)]
  }

  /** Every id of `a` is in `b`, with the same parent. */
  ghost predicate LinksKept(a: Nodes, b: Nodes) {
    forall i | i in a :: i in b && b[i].parent == a[i].parent
  }

  lemma {:induction false} LinksKeptEnds(a: Nodes, b: Nodes, id: MessageId, k: nat)
    requires LinksKept(a, b) && Ends(a, id, k)
    ensures Ends(b, id, k)
    decreases k
  {
    if id != NO_ID { LinksKeptEnds(a, b, a[id].parent, k - 1); }
  }

  lemma LinksKeptGrounded(a: Nodes, b: Nodes, id: MessageId)
    requires LinksKept(a, b) && Grounded(a, id)
    ensures Grounded(b, id) && Depth(b, id) == Depth(a, id)
  {
    LinksKeptEnds(a, b, id, Depth(a, id));
  }

  /** A chain is the same in any map that agrees along it. */
  lemma {:induction false} ChainSame(a: Nodes, b: Nodes, id: MessageId)
    requires Keyed(a) && Grounded(a, id) && forall n | n in Chain(a, id) :: n.id in b && b[n.id] == n
    ensures Grounded(b, id) && Chain(b, id) == Chain(a, id)
    decreases Depth(a, id)
  {
    if id == NO_ID {
      assert Ends(b, id, 0);
    } else {
      ParentGrounded(a, id);
      ChainSame(a, b, a[id].parent);
      assert a[id] in Chain(a, id);
      assert Ends(b, id, Depth(b, b[id].parent) + 1);
    }
  }

  lemma {:induction false} CompleteAtLinks(nodes: Nodes, id: MessageId, callId: Text)
    requires Keyed(nodes) && Grounded(nodes, id)
    ensures var done := CompleteAt(nodes, id, callId);
      && done.Keys == nodes.Keys && Keyed(done) && LinksKept(nodes, done) && LinksKept(done, nodes)
      && (forall i | i in nodes :: done[i] == nodes[i].(payload := done[i].payload))
      && (forall i | i in nodes && i !in Ids(Chain(nodes, id)) :: done[i] == nodes[i])
    decreases Depth(nodes, id)
  {
    if id != NO_ID {
      ParentGrounded(nodes, id);
      assert nodes[id] in Chain(nodes, id);
      if !HasCall(nodes[id].payload, callId) {
        CompleteAtLinks(nodes, nodes[id].parent, callId);
        assert Ids(Chain(nodes, nodes[id].parent)) <= Ids(Chain(nodes, id));
      }
    }
  }

  /** A node is not on the chain to its parent. */
  lemma NotOnOwnPath(nodes: Nodes, id: MessageId)
    requires Keyed(nodes) && Grounded(nodes, id) && id != NO_ID
    ensures id in nodes && Grounded(nodes, nodes[id].parent) && id !in Ids(Chain(nodes, nodes[id].parent))
  {
    ParentGrounded(nodes, id);
    var chain := Chain(nodes, nodes[id].parent);
    if n :| n in chain && n.id == id {
      var i :| 0 <= i < |chain| && chain[i] == n;
      ChainAt(nodes, nodes[id].parent, i);
    }
  }

  lemma EntriesSnoc(chain: seq<Node>, n: Node)
    ensures Entries(chain + [n]) == Entries(chain) + [EntryOf(n)]
  {}

  lemma IdsSnoc(chain: seq<Node>, n: Node)
    ensures Ids(chain + [n]) == Ids(chain) + {n.id}
  {
    assert forall m :: m in chain + [n] <==> m in chain || m == n;
  }

  lemma CompleteSnoc(list: seq<Entry>, e: Entry, callId: Text)
    ensures CompleteEntries(list + [e], callId) ==
      if HasCall(e.payload, callId) then list + [e.(payload := CompletePayload(e.payload, callId))]
      else CompleteEntries(list, callId) + [e]
  {
    assert (list + [e])[..|list|] == list;
  }

  lemma OnChainInMap(nodes: Nodes, id: MessageId)
    requires Keyed(nodes) && Grounded(nodes, id)
    ensures Ids(Chain(nodes, id)) <= nodes.Keys
    ensures forall n | n in Chain(nodes, id) :: n.id in nodes && nodes[n.id] == n
  {
    forall n | n in Chain(nodes, id) ensures n.id in nodes && nodes[n.id] == n {
      var i :| 0 <= i < |Chain(nodes, id)| && Chain(nodes, id)[i] == n;
      ChainAt(nodes, id, i);
    }
  }

  lemma ChainUntouched(nodes: Nodes, done: Nodes, id: MessageId, changed: MessageId)
    requires Keyed(nodes) && Grounded(nodes, id) && changed !in Ids(Chain(nodes, id))
    requires forall i | i in nodes && i != changed :: i in done && done[i] == nodes[i]
    ensures Grounded(done, id) && Chain(done, id) == Chain(nodes, id)
  {
    OnChainInMap(nodes, id);
    ChainSame(nodes, done, id);
  }

  /** The walk over the map is the walk over the list. */
  lemma {:induction false} CompleteAtIsList(nodes: Nodes, id: MessageId, callId: Text)
    requires Keyed(nodes) && Grounded(nodes, id)
    ensures var done := CompleteAt(nodes, id, callId);
      && Grounded(done, id)
      && Entries(Chain(done, id)) == CompleteEntries(Entries(Chain(nodes, id)), callId)
      && Ids(Chain(done, id)) == Ids(Chain(nodes, id))
    decreases Depth(nodes, id)
  {
    CompleteAtLinks(nodes, id, callId);
    var done := CompleteAt(nodes, id, callId);
    LinksKeptGrounded(nodes, done, id);
    if id != NO_ID {
      NotOnOwnPath(nodes, id);
      var (n, parent) := (nodes[id], nodes[id].parent);
      ParentGrounded(done, id);
      if HasCall(n.payload, callId) {
        ChainUntouched(nodes, done, parent, id);
      } else {
        CompleteAtIsList(nodes, parent, callId);
        CompleteAtLinks(nodes, parent, callId);
      }
      hide HasCall, CompleteEntries, CompletePayload;
      EntriesSnoc(Chain(nodes, parent), n);
      EntriesSnoc(Chain(done, parent), done[id]);
      CompleteSnoc(Entries(Chain(nodes, parent)), EntryOf(n), callId);
      IdsSnoc(Chain(nodes, parent), n);
      IdsSnoc(Chain(done, parent), done[id]);
    }
  }

  // ---------------------------------------------------------------- append

  predicate Fresh(g: Graph, id: MessageId) { id != NO_ID && id !in g.nodes }

  /** The new node filed; the call it answers completed, walking from the old leaf. */
  ghost function Filed(g: Graph, e: Entry, id: MessageId): Nodes
    requires Sound(g) && Fresh(g, id)
  {
    var nodes := WithNode(g, e, id);
    LeafGrounded(g);
    LinksKeptGrounded(g.nodes, nodes, g.leaf);
    if e.payload.Receipt? && e.payload.callId != [] then CompleteAt(nodes, g.leaf, e.payload.callId) else nodes
  }

  lemma LeafChainSame(g: Graph, nodes: Nodes)
    requires Sound(g) && forall i | i in g.nodes :: i in nodes && nodes[i] == g.nodes[i]
    ensures Grounded(nodes, g.leaf) && Chain(nodes, g.leaf) == ChainOf(g)
  {
    LeafGrounded(g);
    OnChainInMap(g.nodes, g.leaf);
    ChainSame(g.nodes, nodes, g.leaf);
  }

  lemma FiledLeaf(g: Graph, e: Entry, id: MessageId)
    requires Sound(g) && Fresh(g, id)
    ensures var (nodes, list) := (Filed(g, e, id), Entries(ChainOf(g)));
      && Keyed(nodes) && nodes.Keys == g.nodes.Keys + {id} && Grounded(nodes, g.leaf)
      && Entries(Chain(nodes, g.leaf)) == (if e.payload.Receipt? && e.payload.callId != [] then CompleteEntries(list, e.payload.callId) else list)
      && Ids(Chain(nodes, g.leaf)) == Ids(ChainOf(g))
      && nodes[id] == Node(id, e.timestamp, e.payload, g.leaf)
  {
    var before := WithNode(g, e, id);
    LeafChainSame(g, before);
    LeafGrounded(g);
    OnChainInMap(g.nodes, g.leaf);
    hide CompleteEntries, LinksKept;
    if e.payload.Receipt? && e.payload.callId != [] {
      CompleteAtLinks(before, g.leaf, e.payload.callId);
      CompleteAtIsList(before, g.leaf, e.payload.callId);
    }
  }

  lemma FiledIsList(g: Graph, e: Entry, id: MessageId)
    requires Sound(g) && Fresh(g, id)
    ensures var nodes := Filed(g, e, id);
      && Keyed(nodes) && nodes.Keys == g.nodes.Keys + {id} && Grounded(nodes, id)
      && Entries(Chain(nodes, id)) == Push(Entries(ChainOf(g)), e)
      && Ids(Chain(nodes, id)) == Ids(ChainOf(g)) + {id}
      && nodes[id] == Node(id, e.timestamp, e.payload, g.leaf)
  {
    FiledLeaf(g, e, id);
    var nodes := Filed(g, e, id);
    hide CompleteEntries, Filed, ChainOf, Entries, Ids;
    assert Ends(nodes, id, Depth(nodes, g.leaf) + 1);
    EntriesSnoc(Chain(nodes, g.leaf), nodes[id]);
    IdsSnoc(Chain(nodes, g.leaf), nodes[id]);
  }

  ghost function Appended(g: Graph, e: Entry, id: MessageId): Graph
    requires Sound(g) && Fresh(g, id)
  {
    FiledIsList(g, e, id);
    Graph(Keep(Filed(g, e, id), id), id)
  }

  /** What is kept is exactly the chain, and it is a sound map. */
  lemma KeepIsChain(nodes: Nodes, id: MessageId)
    requires Keyed(nodes) && Grounded(nodes, id)
    ensures var kept := Keep(nodes, id);
      && Keyed(kept) && Resolves(kept) && kept.Keys == Ids(Chain(nodes, id))
      && Grounded(kept, id) && Chain(kept, id) == Chain(nodes, id)
  {
    var kept := Keep(nodes, id);
    OnChainInMap(nodes, id);
    ChainSame(nodes, kept, id);
    forall i | i in kept ensures Grounded(kept, i) {
      var n :| n in Chain(nodes, id) && n.id == i;
      var k :| 0 <= k < |Chain(nodes, id)| && Chain(nodes, id)[k] == n;
      assert Chain(kept, id)[k] == n;
      ChainAt(kept, id, k);
    }
  }

  /**
    Appending to a sound graph pushes onto its list; the map then holds exactly the chain, so nothing
    rewound away is left in it.
  */
  lemma AppendPushes(g: Graph, e: Entry, id: MessageId)
    requires Sound(g) && Fresh(g, id)
    ensures var after := Appended(g, e, id);
      && Sound(after)
      && Entries(ChainOf(after)) == Push(Entries(ChainOf(g)), e)
      && after.nodes.Keys == Ids(ChainOf(after)) == Ids(ChainOf(g)) + {id}
  {
    FiledIsList(g, e, id);
    KeepIsChain(Filed(g, e, id), id);
  }

  // ---------------------------------------------------------------- rewind

  /** Rewinding to a node on the chain cuts the list after it; to the empty id, empties it. */
  lemma RewindTruncates(g: Graph, t: nat)
    requires Sound(g) && t <= |ChainOf(g)|
    ensures var target := if t == 0 then NO_ID else ChainOf(g)[t - 1].id;
      var after := Graph(g.nodes, target);
      Sound(after) && ChainOf(after) == ChainOf(g)[..t] && Entries(ChainOf(after)) == Entries(ChainOf(g))[..t]
  {
    LeafGrounded(g);
    if t > 0 { ChainAt(g.nodes, g.leaf, t - 1); } else { assert Ends(g.nodes, NO_ID, 0); }
  }
}
