/**
  Storing a message graph as JSON and reading it back (src/session/graph.cpp, include/pu/session/message.hpp,
  src/paging/paging.cpp). The order of the stored nodes is the map's, which a reader must not depend on:
  every listing of the nodes counts as a stored form.
*/
module GraphStore {
  import opened Wrappers
  import opened Utf8
  import opened Messages
  import opened GraphSpec
  import opened GraphRuns
  import opened MessageGraphs

  // ---------------------------------------------------------------- members of an object

  predicate HasKey(j: Json, key: string) { j.Obj? && key in j.fields }

  /** The text of a member, or nothing when it is absent or is no string. */
  function StringIn(j: Json, key: string): Text {
    if HasKey(j, key) && j.fields[key].Str? then j.fields[key].text else []
  }

  function ArrayIn(j: Json, key: string): seq<Json> {
    if HasKey(j, key) && j.fields[key].Arr? then j.fields[key].items else []
  }

  function ValueIn(j: Json, key: string, absent: Json): Json {
    if HasKey(j, key) then j.fields[key] else absent
  }

  // ---------------------------------------------------------------- origins

  function RankIn(j: Json): nat {
    if !HasKey(j, "rank") then 0
    else match j.fields["rank"]
      case UInt64(n) => n
      case Int64(n) => if n > 0 then n else 0
      case _ => 0
  }

  function OriginToJson(o: Origin): Json {
    Obj(map["source" := Str(o.source), "buffer" := Str(o.buffer), "rank" := UInt64(o.rank)])
  }

  function OriginFromJson(j: Json): Option<Origin> {
    if StringIn(j, "source") == [] || StringIn(j, "buffer") == [] then None
    else Some(Origin(StringIn(j, "source"), StringIn(j, "buffer"), RankIn(j)))
  }

  predicate Named(o: Origin) { o.source != [] && o.buffer != [] }

  /** An origin survives storing exactly when it names both its question and its run. */
  lemma OriginReadBack(o: Origin)
    ensures OriginFromJson(OriginToJson(o)) == (if Named(o) then Some(o) else None)
  {}

  /** What a tool result, parsed, says of its own origin. */
  function OriginOf(receipt: Option<Json>): Option<Origin> {
    if receipt == None || !HasKey(receipt.value, "buffer") then None
    else
      var held := receipt.value.fields["buffer"];
      if StringIn(held, "source") == [] || StringIn(held, "id") == [] then None
      else Some(Origin(StringIn(held, "source"), StringIn(held, "id"), RankIn(held)))
  }

  /** A rank is read whether it was written signed or not; one below zero, of another kind or left out is none. */
  lemma RanksRead(stored: map<string, Json>, source: Text, run: Text, n: int)
    requires source != [] && run != [] && "source" in stored && stored["source"] == Str(source)
    ensures var (page, result) := (Obj(stored["buffer" := Str(run)]), Obj(map["buffer" := Obj(stored["id" := Str(run)])]));
      && (var rank := if n > 0 then n else 0;
          "rank" in stored && stored["rank"] == Int64(n) ==>
            OriginFromJson(page) == OriginOf(Some(result)) == Some(Origin(source, run, rank)))
      && (n >= 0 && "rank" in stored && stored["rank"] == UInt64(n) ==>
            OriginFromJson(page) == OriginOf(Some(result)) == Some(Origin(source, run, n)))
      && ("rank" !in stored || (!stored["rank"].Int64? && !stored["rank"].UInt64?) ==>
            OriginFromJson(page) == OriginOf(Some(result)) == Some(Origin(source, run, 0)))
  {
    var result := Obj(map["buffer" := Obj(stored["id" := Str(run)])]);
    assert result.fields["buffer"] == Obj(stored["id" := Str(run)]);
  }

  // ---------------------------------------------------------------- what is stored

  function StatusName(s: CallStatus): Text {
    match s
    case Pending => Ascii("pending")
    case Completed => Ascii("completed")
    case Interrupted => Ascii("interrupted")
  }

  function StatusFrom(name: Text): CallStatus {
    if name == StatusName(Completed) then Completed
    else if name == StatusName(Interrupted) then Interrupted
    else Pending
  }

  function CallToJson(c: ToolCall): Json {
    Obj(map["id" := Str(c.id), "name" := Str(c.name), "arguments" := c.arguments, "status" := Str(StatusName(c.status))])
  }

  function CallFromJson(j: Json): ToolCall {
    ToolCall(StringIn(j, "id"), StringIn(j, "name"), ValueIn(j, "arguments", Obj(map[])), StatusFrom(StringIn(j, "status")))
  }

  function ReasoningToJson(r: Reasoning): Json {
    Obj(map["text" := Str(r.text)]
      + (if r.signature != [] then map["signature" := Str(r.signature)] else map[])
      + (if r.raw != Null then map["raw" := r.raw] else map[]))
  }

  /** A block may be stored as its text alone. */
  function ReasoningFromJson(j: Json): Reasoning {
    if j.Str? then Reasoning(j.text, [], Null)
    else Reasoning(StringIn(j, "text"), StringIn(j, "signature"), ValueIn(j, "raw", Null))
  }

  function CallsToJson(calls: seq<ToolCall>): seq<Json> {
    seq(|calls|, i requires 0 <= i < |calls| => CallToJson(calls[i]))
  }

  function BlocksToJson(blocks: seq<Reasoning>): seq<Json> {
    seq(|blocks|, i requires 0 <= i < |blocks| => ReasoningToJson(blocks[i]))
  }

  function CallsFromJson(items: seq<Json>): seq<ToolCall> {
    seq(|items|, i requires 0 <= i < |items| => CallFromJson(items[i]))
  }

  function BlocksFromJson(items: seq<Json>): seq<Reasoning> {
    seq(|items|, i requires 0 <= i < |items| => ReasoningFromJson(items[i]))
  }

  /** The members a payload adds to its node; those that are empty are left out. */
  function PayloadFields(p: Payload): map<string, Json> {
    match p
    case User(content, fromPeer) =>
      map["role" := Str(USER_ROLE), "content" := Str(content)]
        + (if fromPeer != [] then map["from_peer" := Str(fromPeer)] else map[])
    case Assistant(content, reasoning, calls) =>
      map["role" := Str(ASSISTANT_ROLE), "content" := Str(content)]
        + (if reasoning != [] then map["reasoning" := Arr(BlocksToJson(reasoning))] else map[])
        + (if calls != [] then map["tool_calls" := Arr(CallsToJson(calls))] else map[])
    case System(content) => map["role" := Str(SYSTEM_ROLE), "content" := Str(content)]
    case Receipt(callId, toolName, content, origin) =>
      map["role" := Str(TOOL_ROLE), "content" := Str(content), "tool_call_id" := Str(callId), "tool_name" := Str(toolName)]
        + (if origin.Some? then map["origin" := OriginToJson(origin.value)] else map[])
  }

  function NodeFields(n: Node): map<string, Json> {
    map["id" := Str(n.id), "timestamp" := Str(n.timestamp), "parent" := Str(n.parent)]
  }

  function NodeJson(n: Node): Json { Obj(NodeFields(n) + PayloadFields(n.payload)) }

  function ReadPayload(j: Json): Option<Payload> {
    var (role, content) := (StringIn(j, "role"), StringIn(j, "content"));
    if role == USER_ROLE then Some(User(content, StringIn(j, "from_peer")))
    else if role == ASSISTANT_ROLE then
      Some(Assistant(content, BlocksFromJson(ArrayIn(j, "reasoning")), CallsFromJson(ArrayIn(j, "tool_calls"))))
    else if role == SYSTEM_ROLE then Some(System(content))
    else if role == TOOL_ROLE then
      Some(Receipt(StringIn(j, "tool_call_id"), StringIn(j, "tool_name"), content,
        if HasKey(j, "origin") then OriginFromJson(j.fields["origin"]) else None))
    else None
  }

  /** A node names itself, has one of four roles, and its parent, if given, is a string. */
  function ReadNode(j: Json): (r: Option<Node>)
    ensures r.Some? ==> r.value.id != NO_ID
  {
    if !j.Obj? || StringIn(j, "id") == [] || (HasKey(j, "parent") && !j.fields["parent"].Str?) then None
    else match ReadPayload(j)
      case None => None
      case Some(p) => Some(Node(StringIn(j, "id"), StringIn(j, "timestamp"), p, StringIn(j, "parent")))
  }

  // ---------------------------------------------------------------- reading back a node

  lemma RolesDiffer()
    ensures USER_ROLE != ASSISTANT_ROLE && USER_ROLE != SYSTEM_ROLE && USER_ROLE != TOOL_ROLE
    ensures ASSISTANT_ROLE != SYSTEM_ROLE && ASSISTANT_ROLE != TOOL_ROLE && SYSTEM_ROLE != TOOL_ROLE
  {
    assert |USER_ROLE| == 4 && |ASSISTANT_ROLE| == 9 && |SYSTEM_ROLE| == 6 && |TOOL_ROLE| == 4;
    assert USER_ROLE[1] == 0x73 && TOOL_ROLE[1] == 0x6F;
  }

  lemma StatusReadBack(s: CallStatus)
    ensures StatusFrom(StatusName(s)) == s
  {
    assert |Ascii("pending")| == 7 && |Ascii("completed")| == 9 && |Ascii("interrupted")| == 11;
  }

  lemma CallsReadBack(calls: seq<ToolCall>)
    ensures CallsFromJson(CallsToJson(calls)) == calls
  {
    forall i | 0 <= i < |calls| ensures CallFromJson(CallToJson(calls[i])) == calls[i] {
      StatusReadBack(calls[i].status);
    }
  }

  lemma BlocksReadBack(blocks: seq<Reasoning>)
    ensures BlocksFromJson(BlocksToJson(blocks)) == blocks
  {
    forall i | 0 <= i < |blocks| ensures ReasoningFromJson(ReasoningToJson(blocks[i])) == blocks[i] {}
  }

  /** What is read of a stored payload: the payload, but for an origin that does not name itself. */
  function Stored(p: Payload): Payload {
    if p.Receipt? && p.origin.Some? && !Named(p.origin.value) then p.(origin := None) else p
  }

  /** A member of the payload is read from the node as it was put there. */
  lemma PayloadMember(n: Node, key: string)
    requires key != "id" && key != "timestamp" && key != "parent"
    ensures HasKey(NodeJson(n), key) <==> key in PayloadFields(n.payload)
    ensures key in PayloadFields(n.payload) ==> NodeJson(n).fields[key] == PayloadFields(n.payload)[key]
  {
    hide PayloadFields;
  }

  lemma RoleAndContent(n: Node)
    ensures var j := NodeJson(n);
      && StringIn(j, "content") == n.payload.content
      && StringIn(j, "role") == match n.payload
         case User(_, _) => USER_ROLE
         case Assistant(_, _, _) => ASSISTANT_ROLE
         case System(_) => SYSTEM_ROLE
         case Receipt(_, _, _, _) => TOOL_ROLE
  {
    PayloadMember(n, "role");
    PayloadMember(n, "content");
    hide NodeJson;
  }

  lemma UserReadBack(n: Node)
    requires n.payload.User?
    ensures StringIn(NodeJson(n), "from_peer") == n.payload.fromPeer
  {
    PayloadMember(n, "from_peer");
    hide NodeJson;
  }

  lemma AssistantReadBack(n: Node)
    requires n.payload.Assistant?
    ensures BlocksFromJson(ArrayIn(NodeJson(n), "reasoning")) == n.payload.reasoning
    ensures CallsFromJson(ArrayIn(NodeJson(n), "tool_calls")) == n.payload.calls
  {
    PayloadMember(n, "reasoning");
    PayloadMember(n, "tool_calls");
    BlocksReadBack(n.payload.reasoning);
    CallsReadBack(n.payload.calls);
    hide NodeJson, BlocksToJson, CallsToJson;
  }

  lemma ReceiptReadBack(n: Node)
    requires n.payload.Receipt?
    ensures var (j, p) := (NodeJson(n), n.payload);
      && StringIn(j, "tool_call_id") == p.callId && StringIn(j, "tool_name") == p.toolName
      && (HasKey(j, "origin") <==> p.origin.Some?)
      && (p.origin.Some? ==> j.fields["origin"] == OriginToJson(p.origin.value))
  {
    PayloadMember(n, "tool_call_id");
    PayloadMember(n, "tool_name");
    PayloadMember(n, "origin");
    hide NodeJson, OriginToJson;
  }

  lemma PayloadReadBack(n: Node)
    ensures ReadPayload(NodeJson(n)) == Some(Stored(n.payload))
  {
    RolesDiffer();
    RoleAndContent(n);
    hide NodeJson, BlocksFromJson, CallsFromJson, OriginToJson, OriginFromJson, StringIn, ArrayIn;
    match n.payload
    case User(_, _) => UserReadBack(n);
    case Assistant(_, _, _) => AssistantReadBack(n);
    case System(_) =>
    case Receipt(_, _, _, origin) =>
      ReceiptReadBack(n);
      if origin.Some? { OriginReadBack(origin.value); }
  }

  lemma NodeMembers(n: Node)
    ensures var fields := NodeJson(n).fields;
      "id" in fields && fields["id"] == Str(n.id) && "parent" in fields && fields["parent"] == Str(n.parent)
      && "timestamp" in fields && fields["timestamp"] == Str(n.timestamp)
  {
    var p := PayloadFields(n.payload);
    assert "id" !in p && "parent" !in p && "timestamp" !in p;
    hide PayloadFields;
  }

  /** A stored node reads back as itself, exactly when its origin, if it has one, names question and run. */
  lemma NodeReadBack(n: Node)
    requires n.id != NO_ID
    ensures ReadNode(NodeJson(n)) == Some(n.(payload := Stored(n.payload)))
  {
    PayloadReadBack(n);
    NodeMembers(n);
    hide ReadPayload, Stored, NodeFields, PayloadFields;
  }

  // ---------------------------------------------------------------- the whole graph

  /** `ids` lists every node once. */
  ghost predicate Lists(ids: seq<MessageId>, nodes: Nodes) {
    && (forall i | 0 <= i < |ids| :: ids[i] in nodes)
    && (forall id | id in nodes :: id in ids)
    && (forall i, j | 0 <= i < j < |ids| :: ids[i] != ids[j])
  }

  function NodesJson(ids: seq<MessageId>, nodes: Nodes): seq<Json>
    requires forall i | 0 <= i < |ids| :: ids[i] in nodes
  {
    seq(|ids|, i requires 0 <= i < |ids| => NodeJson(nodes[ids[i]]))
  }

  function GraphJson(items: seq<Json>, leaf: MessageId): Json {
    Obj(map["nodes" := Arr(items), "leaf" := Str(leaf)])
  }

  /** `j` stores `g`, in some order. */
  ghost predicate Stores(j: Json, g: Graph) {
    exists ids: seq<MessageId> :: Lists(ids, g.nodes) && j == GraphJson(NodesJson(ids, g.nodes), g.leaf)
  }

  /** Each item is a node whose id no earlier one had. */
  function ReadNodes(nodes: Nodes, items: seq<Json>): Option<Nodes>
    decreases |items|
  {
    if items == [] then Some(nodes)
    else match ReadNode(items[0])
      case None => None
      case Some(n) => if n.id in nodes then None else ReadNodes(nodes[n.id := n], items[1..])
  }

  ghost function ReadGraph(j: Json): Option<Graph> {
    if !HasKey(j, "nodes") || !j.fields["nodes"].Arr? || !HasKey(j, "leaf") || !j.fields["leaf"].Str? then None
    else match ReadNodes(map[], j.fields["nodes"].items)
      case None => None
      case Some(nodes) =>
        var leaf := j.fields["leaf"].text;
        if (leaf == NO_ID || leaf in nodes) && Resolves(nodes) then Some(Graph(nodes, leaf)) else None
  }

  // ---------------------------------------------------------------- what is accepted

  /** Every item is a node, and no two have the same id. */
  predicate Readable(items: seq<Json>) {
    && (forall i | 0 <= i < |items| :: ReadNode(items[i]).Some?)
    && (forall i, j | 0 <= i < j < |items| :: ReadNode(items[i]).value.id != ReadNode(items[j]).value.id)
  }

  predicate Apart(nodes: Nodes, items: seq<Json>)
    requires Readable(items)
  {
    forall i | 0 <= i < |items| :: ReadNode(items[i]).value.id !in nodes
  }

  lemma {:induction false} ReadNodesAccepts(nodes: Nodes, items: seq<Json>)
    ensures ReadNodes(nodes, items).Some? <==> Readable(items) && Apart(nodes, items)
    decreases |items|
  {
    hide ReadNode;
    if items != [] && ReadNode(items[0]).Some? {
      var (n, rest) := (ReadNode(items[0]).value, items[1..]);
      ReadNodesAccepts(nodes[n.id := n], rest);
      ReadableSplits(items, rest);
      if Readable(items) { ApartSplits(nodes, items, rest); }
    }
  }

  lemma ReadableSplits(items: seq<Json>, rest: seq<Json>)
    requires items != [] && rest == items[1..] && ReadNode(items[0]).Some?
    ensures Readable(items) <==> Readable(rest) && forall i | 0 <= i < |rest| :: ReadNode(rest[i]).value.id != ReadNode(items[0]).value.id
  {
    hide ReadNode;
    if Readable(rest) && forall i | 0 <= i < |rest| :: ReadNode(rest[i]).value.id != ReadNode(items[0]).value.id {
      forall i | 0 <= i < |items| ensures ReadNode(items[i]).Some? { if i > 0 { assert items[i] == rest[i - 1]; } }
      forall i, j | 0 <= i < j < |items| ensures ReadNode(items[i]).value.id != ReadNode(items[j]).value.id {
        assert items[j] == rest[j - 1];
        if i > 0 { assert items[i] == rest[i - 1]; }
      }
    }
    if Readable(items) {
      forall i | 0 <= i < |rest| ensures ReadNode(rest[i]).Some? && ReadNode(rest[i]).value.id != ReadNode(items[0]).value.id {
        assert rest[i] == items[i + 1];
      }
      forall i, j | 0 <= i < j < |rest| ensures ReadNode(rest[i]).value.id != ReadNode(rest[j]).value.id {
        assert rest[i] == items[i + 1] && rest[j] == items[j + 1];
      }
    }
  }

  lemma ApartSplits(nodes: Nodes, items: seq<Json>, rest: seq<Json>)
    requires items != [] && rest == items[1..] && Readable(items) && Readable(rest)
    ensures var n := ReadNode(items[0]).value; Apart(nodes, items) <==> n.id !in nodes && Apart(nodes[n.id := n], rest)
  {
    hide ReadNode;
    var n := ReadNode(items[0]).value;
    if n.id !in nodes && Apart(nodes[n.id := n], rest) {
      forall i | 0 <= i < |items| ensures ReadNode(items[i]).value.id !in nodes {
        if i > 0 { assert items[i] == rest[i - 1]; }
      }
    }
  }

  /** What is read: the nodes of the items filed under their ids, beside those read before. */
  lemma {:induction false} ReadNodesFiles(nodes: Nodes, items: seq<Json>)
    requires ReadNodes(nodes, items).Some?
    ensures var read := ReadNodes(nodes, items).value;
      && (forall i | 0 <= i < |items| :: ReadNode(items[i]).Some? && ReadNode(items[i]).value.id in read
           && read[ReadNode(items[i]).value.id] == ReadNode(items[i]).value)
      && (forall id | id in nodes :: id in read && read[id] == nodes[id])
      && (forall id | id in read :: id in nodes || exists i | 0 <= i < |items| :: ReadNode(items[i]) == Some(read[id]) && read[id].id == id)
    decreases |items|
  {
    hide ReadNode;
    if items != [] {
      var (n, rest) := (ReadNode(items[0]).value, items[1..]);
      ReadNodesFiles(nodes[n.id := n], rest);
      var read := ReadNodes(nodes, items).value;
      forall id | id in read && id !in nodes
        ensures exists i | 0 <= i < |items| :: ReadNode(items[i]) == Some(read[id]) && read[id].id == id
      {
        if id == n.id {
          assert ReadNode(items[0]) == Some(read[id]);
        } else {
          var k :| 0 <= k < |rest| && ReadNode(rest[k]) == Some(read[id]) && read[id].id == id;
          assert items[k + 1] == rest[k];
        }
      }
    }
  }

  /** Only graphs are accepted: unique ids, none empty; an existing leaf; links that resolve. */
  lemma ReadIsSound(j: Json)
    requires ReadGraph(j).Some?
    ensures Sound(ReadGraph(j).value)
  {
    ReadNodesFiles(map[], j.fields["nodes"].items);
  }

  /** And every one of them is: the conditions of acceptance are exactly these. */
  lemma AcceptsExactly(items: seq<Json>, leaf: MessageId)
    ensures var j := GraphJson(items, leaf);
      ReadGraph(j).Some? <==>
        && Readable(items)
        && (leaf == NO_ID || exists i | 0 <= i < |items| :: ReadNode(items[i]).value.id == leaf)
        && ReadNodes(map[], items).Some? && Resolves(ReadNodes(map[], items).value)
  {
    hide ReadNode, Readable, Resolves;
    ReadNodesAccepts(map[], items);
    if ReadNodes(map[], items).Some? { ReadNodesFiles(map[], items); }
  }

  // ---------------------------------------------------------------- round trip

  predicate OriginNamed(p: Payload) { p.Receipt? && p.origin.Some? ==> Named(p.origin.value) }

  predicate OriginsNamed(nodes: Nodes) { forall id | id in nodes :: OriginNamed(nodes[id].payload) }

  function AsStored(nodes: Nodes): Nodes { map id | id in nodes :: nodes[id].(payload := Stored(nodes[id].payload)) }

  lemma ListedReadable(ids: seq<MessageId>, nodes: Nodes)
    requires Keyed(nodes) && Lists(ids, nodes)
    ensures var items := NodesJson(ids, nodes);
      && Readable(items) && Apart(map[], items)
      && forall i | 0 <= i < |ids| :: ReadNode(items[i]) == Some(AsStored(nodes)[ids[i]])
  {
    hide ReadNode, NodeJson, Stored;
    forall i | 0 <= i < |ids| ensures ReadNode(NodesJson(ids, nodes)[i]) == Some(AsStored(nodes)[ids[i]]) {
      NodeReadBack(nodes[ids[i]]);
    }
  }

  lemma ListedReads(ids: seq<MessageId>, nodes: Nodes)
    requires Keyed(nodes) && Lists(ids, nodes)
    ensures ReadNodes(map[], NodesJson(ids, nodes)) == Some(AsStored(nodes))
  {
    hide ReadNode, NodeJson, Stored, Readable, ReadNodes;
    var items := NodesJson(ids, nodes);
    ListedReadable(ids, nodes);
    ReadNodesAccepts(map[], items);
    ReadNodesFiles(map[], items);
    var read := ReadNodes(map[], items).value;
    forall id | id in nodes ensures id in read && read[id] == AsStored(nodes)[id] {
      var i :| 0 <= i < |ids| && ids[i] == id;
      assert ReadNode(items[i]).Some?;
    }
    assert read == AsStored(nodes);
  }

  lemma AsStoredIsSame(nodes: Nodes)
    ensures AsStored(nodes) == nodes <==> OriginsNamed(nodes)
  {
    if AsStored(nodes) == nodes {
      forall id | id in nodes ensures OriginNamed(nodes[id].payload) {
        assert AsStored(nodes)[id].payload == Stored(nodes[id].payload);
      }
    }
  }

  lemma AsStoredResolves(nodes: Nodes)
    requires Resolves(nodes)
    ensures Resolves(AsStored(nodes))
  {
    hide Stored;
    forall id | id in nodes ensures Grounded(AsStored(nodes), id) { LinksKeptGrounded(nodes, AsStored(nodes), id); }
  }

  /**
    Whatever order a sound graph is stored in, it is accepted, and what is read is the graph itself
    exactly when every origin it keeps names its question and its run.
  */
  lemma StoredReadBack(g: Graph, j: Json)
    requires Sound(g) && Stores(j, g)
    ensures ReadGraph(j) == Some(Graph(AsStored(g.nodes), g.leaf))
    ensures ReadGraph(j) == Some(g) <==> OriginsNamed(g.nodes)
  {
    hide Stored, Resolves;
    var ids: seq<MessageId> :| Lists(ids, g.nodes) && j == GraphJson(NodesJson(ids, g.nodes), g.leaf);
    ListedReads(ids, g.nodes);
    AsStoredResolves(g.nodes);
    AsStoredIsSame(g.nodes);
  }

  // ---------------------------------------------------------------- every reachable graph

  /** A payload that was read has no origin but one that names itself. */
  lemma ReadOriginNamed(j: Json)
    requires ReadPayload(j).Some?
    ensures OriginNamed(ReadPayload(j).value)
  {
    hide BlocksFromJson, CallsFromJson;
  }

  lemma ReadNodeNamed(j: Json)
    requires ReadNode(j).Some?
    ensures OriginNamed(ReadNode(j).value.payload)
  {
    ReadOriginNamed(j);
    hide ReadPayload, OriginNamed;
  }

  /** Whatever is accepted keeps only origins that name themselves, so it is stored and read back whole. */
  lemma ReadIsNamed(j: Json)
    requires ReadGraph(j).Some?
    ensures OriginsNamed(ReadGraph(j).value.nodes)
  {
    hide ReadNode, OriginNamed;
    var items := j.fields["nodes"].items;
    ReadNodesFiles(map[], items);
    var nodes := ReadGraph(j).value.nodes;
    forall id | id in nodes ensures OriginNamed(nodes[id].payload) {
      var i :| 0 <= i < |items| && ReadNode(items[i]) == Some(nodes[id]);
      ReadNodeNamed(items[i]);
    }
  }

  /** An origin read from a result names its question and its run. */
  lemma OriginsReadAreNamed(receipt: Option<Json>)
    ensures OriginOf(receipt).Some? ==> Named(OriginOf(receipt).value)
  {}

  lemma {:induction false} CompleteKeepsNamed(nodes: Nodes, id: MessageId, callId: Text)
    requires Grounded(nodes, id) && OriginsNamed(nodes)
    ensures OriginsNamed(CompleteAt(nodes, id, callId))
    decreases Depth(nodes, id)
  {
    if id != NO_ID {
      ParentGrounded(nodes, id);
      if !HasCall(nodes[id].payload, callId) { CompleteKeepsNamed(nodes, nodes[id].parent, callId); }
    }
  }

  lemma AppendKeepsNamed(g: Graph, e: Entry, id: MessageId)
    requires Sound(g) && Fresh(g, id) && OriginsNamed(g.nodes) && OriginNamed(e.payload)
    ensures OriginsNamed(Appended(g, e, id).nodes)
  {
    var nodes := WithNode(g, e, id);
    LeafGrounded(g);
    LinksKeptGrounded(g.nodes, nodes, g.leaf);
    if e.payload.Receipt? { CompleteKeepsNamed(nodes, g.leaf, e.payload.callId); }
    FiledIsList(g, e, id);
  }

  lemma {:induction false} AppendAllKeepsNamed(g: Graph, es: seq<Entry>, ids: seq<MessageId>)
    requires Sound(g) && |es| == |ids| && FreshIds(g, ids) && OriginsNamed(g.nodes)
    requires forall i | 0 <= i < |es| :: OriginNamed(es[i].payload)
    ensures OriginsNamed(AppendedAll(g, es, ids).nodes)
    decreases |es|
  {
    if es != [] {
      FreshAfter(g, es[0], ids);
      AppendKeepsNamed(g, es[0], ids[0]);
      AppendAllKeepsNamed(Appended(g, es[0], ids[0]), es[1..], ids[1..]);
    }
  }

  lemma StepKeepsNamed(g: Graph, op: Op)
    requires Sound(g) && CanApply(g, op) && OriginsNamed(g.nodes)
    requires op.Append? ==> OriginNamed(op.e.payload)
    ensures OriginsNamed(Applied(g, op).nodes)
  {
    match op
    case Append(e, id) => AppendKeepsNamed(g, e, id);
    case RewindBefore(_) =>
    case Seal(ids) =>
      if LeafUnfinished(g) {
        SealedLeafIsList(g);
        AppendAllKeepsNamed(SealedLeaf(g), Receipts(Unrun(g.nodes[g.leaf].payload.calls)), ids);
      }
  }

  /** A graph reached by any run whose results carry the origins read from them is stored and read back whole. */
  lemma {:induction false} RunReadsBack(g: Graph, ops: seq<Op>, j: Json)
    requires Sound(g) && OriginsNamed(g.nodes) && Runs(g, ops)
    requires forall i | 0 <= i < |ops| :: ops[i].Append? ==> OriginNamed(ops[i].e.payload)
    requires Stores(j, Run(g, ops))
    ensures ReadGraph(j) == Some(Run(g, ops))
    decreases |ops|
  {
    hide Stores, ReadGraph, Applied, OriginsNamed, CanApply;
    if ops == [] {
      StoredReadBack(g, j);
    } else {
      StepIsList(g, ops[0]);
      StepKeepsNamed(g, ops[0]);
      RunReadsBack(Applied(g, ops[0]), ops[1..], j);
    }
  }

  /** So is every graph reached from one that was loaded. */
  lemma LoadedRunReadsBack(loaded: Json, ops: seq<Op>, j: Json)
    requires ReadGraph(loaded).Some? && Sound(ReadGraph(loaded).value) && Runs(ReadGraph(loaded).value, ops)
    requires forall i | 0 <= i < |ops| :: ops[i].Append? ==> OriginNamed(ops[i].e.payload)
    requires Stores(j, Run(ReadGraph(loaded).value, ops))
    ensures ReadGraph(j) == Some(Run(ReadGraph(loaded).value, ops))
  {
    ReadIsNamed(loaded);
    hide ReadGraph, Stores, OriginsNamed;
    RunReadsBack(ReadGraph(loaded).value, ops, j);
  }

  // ---------------------------------------------------------------- the methods

  method SerializeBlocks(reasoning: seq<Reasoning>) returns (blocks: seq<Json>)
    ensures blocks == BlocksToJson(reasoning)
  {
    blocks := [];
    for i := 0 to |reasoning|
      invariant |blocks| == i && forall k | 0 <= k < i :: blocks[k] == ReasoningToJson(reasoning[k])
    {
      blocks := blocks + [ReasoningToJson(reasoning[i])];
    }
  }

  method SerializeCalls(records: seq<ToolCall>) returns (calls: seq<Json>)
    ensures calls == CallsToJson(records)
  {
    calls := [];
    for i := 0 to |records|
      invariant |calls| == i && forall k | 0 <= k < i :: calls[k] == CallToJson(records[k])
    {
      calls := calls + [CallToJson(records[i])];
    }
  }

  method SerializePayload(payload: Payload) returns (out: map<string, Json>)
    ensures out == PayloadFields(payload)
  {
    hide BlocksToJson, CallsToJson, OriginToJson;
    match payload {
      case User(content, fromPeer) =>
        out := map["role" := Str(USER_ROLE), "content" := Str(content)];
        if fromPeer != [] { out := out["from_peer" := Str(fromPeer)]; }
      case Assistant(content, reasoning, calls) =>
        out := map["role" := Str(ASSISTANT_ROLE), "content" := Str(content)];
        if reasoning != [] {
          var blocks := SerializeBlocks(reasoning);
          out := out["reasoning" := Arr(blocks)];
        }
        if calls != [] {
          var records := SerializeCalls(calls);
          out := out["tool_calls" := Arr(records)];
        }
      case System(content) =>
        out := map["role" := Str(SYSTEM_ROLE), "content" := Str(content)];
      case Receipt(callId, toolName, content, origin) =>
        out := map["role" := Str(TOOL_ROLE), "content" := Str(content), "tool_call_id" := Str(callId), "tool_name" := Str(toolName)];
        if origin.Some? { out := out["origin" := OriginToJson(origin.value)]; }
    }
  }

  method SerializeNode(node: Node) returns (j: Json)
    ensures j == NodeJson(node)
  {
    var payload := SerializePayload(node.payload);
    j := Obj(NodeFields(node) + payload);
  }

  method DeserializeNode(value: Json) returns (r: Option<Node>)
    ensures r == ReadNode(value)
  {
    if !value.Obj? || StringIn(value, "id") == [] { return None; }
    var parent := NO_ID;
    if HasKey(value, "parent") {
      if !value.fields["parent"].Str? { return None; }
      parent := value.fields["parent"].text;
    }
    var (role, content) := (StringIn(value, "role"), StringIn(value, "content"));
    var payload;
    if role == USER_ROLE {
      payload := User(content, StringIn(value, "from_peer"));
    } else if role == ASSISTANT_ROLE {
      var blocks := DeserializeBlocks(ArrayIn(value, "reasoning"));
      var calls := DeserializeCalls(ArrayIn(value, "tool_calls"));
      payload := Assistant(content, blocks, calls);
    } else if role == SYSTEM_ROLE {
      payload := System(content);
    } else if role == TOOL_ROLE {
      var origin := None;
      if HasKey(value, "origin") { origin := OriginFromJson(value.fields["origin"]); }
      payload := Receipt(StringIn(value, "tool_call_id"), StringIn(value, "tool_name"), content, origin);
    } else {
      return None;
    }
    r := Some(Node(StringIn(value, "id"), StringIn(value, "timestamp"), payload, parent));
  }

  method DeserializeBlocks(items: seq<Json>) returns (blocks: seq<Reasoning>)
    ensures blocks == BlocksFromJson(items)
  {
    blocks := [];
    for i := 0 to |items|
      invariant |blocks| == i && forall k | 0 <= k < i :: blocks[k] == ReasoningFromJson(items[k])
    {
      blocks := blocks + [ReasoningFromJson(items[i])];
    }
  }

  method DeserializeCalls(items: seq<Json>) returns (calls: seq<ToolCall>)
    ensures calls == CallsFromJson(items)
  {
    calls := [];
    for i := 0 to |items|
      invariant |calls| == i && forall k | 0 <= k < i :: calls[k] == CallFromJson(items[k])
    {
      calls := calls + [CallFromJson(items[i])];
    }
  }

  method Serialize(g: MessageGraph) returns (j: Json)
    ensures Stores(j, g.State())
  {
    var items: seq<Json> := [];
    ghost var ids: seq<MessageId> := [];
    var todo := g.nodes.Keys;
    while todo != {}
      invariant todo <= g.nodes.Keys
      invariant forall id | id in g.nodes :: id in todo <==> id !in ids
      invariant forall i | 0 <= i < |ids| :: ids[i] in g.nodes
      invariant forall i, k | 0 <= i < k < |ids| :: ids[i] != ids[k]
      invariant items == NodesJson(ids, g.nodes)
      decreases |todo|
    {
      var id :| id in todo;
      todo := todo - {id};
      var item := SerializeNode(g.nodes[id]);
      items := items + [item];
      ids := ids + [id];
    }
    assert Lists(ids, g.nodes);
    j := GraphJson(items, g.leaf);
  }

  /** A refused value leaves the graph that was to hold it as it was. */
  method Deserialize(value: Json, out: MessageGraph) returns (ok: bool)
    modifies out
    ensures ok <==> ReadGraph(value).Some?
    ensures out.State() == if ok then ReadGraph(value).value else old(out.State())
    ensures ok ==> Sound(out.State())
  {
    if !HasKey(value, "nodes") || !value.fields["nodes"].Arr? { return false; }
    if !HasKey(value, "leaf") || !value.fields["leaf"].Str? { return false; }
    var nodes := DeserializeNodes(value.fields["nodes"].items);
    if nodes == None { return false; }
    var leaf := value.fields["leaf"].text;
    if leaf != NO_ID && leaf !in nodes.value { return false; }
    var graph := new MessageGraph();
    graph.nodes := nodes.value;
    ok := graph.LinksResolve();
    if !ok { return; }
    ReadIsSound(value);
    out.nodes, out.leaf := graph.nodes, leaf;
  }

  method DeserializeNodes(items: seq<Json>) returns (r: Option<Nodes>)
    ensures r == ReadNodes(map[], items)
  {
    var nodes: Nodes := map[];
    for i := 0 to |items|
      invariant ReadNodes(nodes, items[i..]) == ReadNodes(map[], items)
    {
      var node := DeserializeNode(items[i]);
      assert items[i..][1..] == items[i + 1..];
      if node == None || node.value.id in nodes { return None; }
      nodes := nodes[node.value.id := node.value];
    }
    r := Some(nodes);
  }
}
