/**
  A conversation over its message graph (src/session/session.cpp): what enters it is made valid text first,
  and a rewind answers before it cuts. Fresh ids and the JSON parser are parameters.
*/
module Conversations {
  import opened Wrappers
  import opened Utf8
  import opened Messages
  import opened GraphSpec
  import opened GraphRuns
  import opened MessageGraphs
  import GraphStore

  datatype ChatMessage = ChatMessage(
    id: nat, timestamp: Text, role: Text, content: Text, reasoning: seq<Reasoning>, toolCalls: Json,
    toolCallId: Text, toolName: Text, fromPeer: Text)

  // ---------------------------------------------------------------- valid text

  predicate WellEncoded(m: ChatMessage) {
    && Valid(m.content) && Valid(m.toolName) && Valid(m.toolCallId)
    && forall i | 0 <= i < |m.reasoning| :: Valid(m.reasoning[i].text)
  }

  function CleanReasoning(blocks: seq<Reasoning>): seq<Reasoning> {
    seq(|blocks|, i requires 0 <= i < |blocks| => blocks[i].(text := Sanitized(blocks[i].text)))
  }

  function Cleaned(m: ChatMessage): ChatMessage {
    m.(content := Sanitized(m.content), toolName := Sanitized(m.toolName), toolCallId := Sanitized(m.toolCallId),
       reasoning := CleanReasoning(m.reasoning))
  }

  method Normalized(m: ChatMessage) returns (clean: ChatMessage)
    ensures clean == Cleaned(m)
    ensures WellEncoded(clean)
    ensures clean == m <==> WellEncoded(m)
  {
    hide Valid, Sanitized;
    CleanedIsValid(m);
    CleanedIsIdentity(m);
    var content := IsValidUtf8(m.content);
    var name := IsValidUtf8(m.toolName);
    var id := IsValidUtf8(m.toolCallId);
    var valid := content && name && id;
    for i := 0 to |m.reasoning|
      invariant valid == (Valid(m.content) && Valid(m.toolName) && Valid(m.toolCallId)
                          && forall k | 0 <= k < i :: Valid(m.reasoning[k].text))
    {
      var text := IsValidUtf8(m.reasoning[i].text);
      if !text { valid := false; }
    }
    if valid { return m; }
    var c := SanitizeUtf8(m.content);
    var n := SanitizeUtf8(m.toolName);
    var t := SanitizeUtf8(m.toolCallId);
    var blocks := m.reasoning;
    for i := 0 to |blocks|
      invariant |blocks| == |m.reasoning|
      invariant forall k | 0 <= k < i :: blocks[k] == CleanReasoning(m.reasoning)[k]
      invariant forall k | i <= k < |blocks| :: blocks[k] == m.reasoning[k]
    {
      var text := SanitizeUtf8(blocks[i].text);
      blocks := blocks[i := blocks[i].(text := text)];
    }
    assert blocks == CleanReasoning(m.reasoning);
    clean := m.(content := c, toolName := n, toolCallId := t, reasoning := blocks);
  }

  lemma CleanedIsValid(m: ChatMessage)
    ensures WellEncoded(Cleaned(m))
  {
    hide Valid, Sanitized;
    SanitizedIsValid(m.content);
    SanitizedIsValid(m.toolName);
    SanitizedIsValid(m.toolCallId);
    forall i | 0 <= i < |m.reasoning| ensures Valid(Sanitized(m.reasoning[i].text)) { SanitizedIsValid(m.reasoning[i].text); }
  }

  lemma CleanedIsIdentity(m: ChatMessage)
    ensures Cleaned(m) == m <==> WellEncoded(m)
  {
    hide Valid, Sanitized;
    SanitizedIsIdentity(m.content);
    SanitizedIsIdentity(m.toolName);
    SanitizedIsIdentity(m.toolCallId);
    forall i | 0 <= i < |m.reasoning|
      ensures CleanReasoning(m.reasoning)[i] == m.reasoning[i] <==> Valid(m.reasoning[i].text)
    {
      SanitizedIsIdentity(m.reasoning[i].text);
    }
    assert CleanReasoning(m.reasoning) == m.reasoning
      <==> forall i | 0 <= i < |m.reasoning| :: CleanReasoning(m.reasoning)[i] == m.reasoning[i];
  }

  // ---------------------------------------------------------------- payloads

  /** A call as a provider writes it; a call without a function has neither name nor arguments. */
  function CallFromProvider(j: Json): ToolCall {
    if !GraphStore.HasKey(j, "function") then ToolCall(GraphStore.StringIn(j, "id"), [], Null, Pending)
    else
      var f := j.fields["function"];
      ToolCall(GraphStore.StringIn(j, "id"), GraphStore.StringIn(f, "name"), GraphStore.ValueIn(f, "arguments", Obj(map[])), Pending)
  }

  function CallsFromProvider(j: Json): seq<ToolCall> {
    if j.Arr? then seq(|j.items|, i requires 0 <= i < |j.items| => CallFromProvider(j.items[i])) else []
  }

  /** Where a result came from, if its text is a JSON object that says so. */
  function OriginOf(content: Text, parse: Text -> Option<Json>): Option<Origin> {
    if content == [] || content[0] != 0x7B then None else GraphStore.OriginOf(parse(content))
  }

  function ToPayload(m: ChatMessage, parse: Text -> Option<Json>): Payload {
    if m.role == ASSISTANT_ROLE then Assistant(m.content, m.reasoning, CallsFromProvider(m.toolCalls))
    else if m.role == TOOL_ROLE then Receipt(m.toolCallId, m.toolName, m.content, OriginOf(m.content, parse))
    else if m.role == SYSTEM_ROLE then System(m.content)
    else User(m.content, m.fromPeer)
  }

  /** A message as the list keeps it. */
  function Incoming(m: ChatMessage, parse: Text -> Option<Json>): Entry {
    Entry(m.timestamp, ToPayload(Cleaned(m), parse))
  }

  /** Whatever arrives, an origin that is kept names its question and its run, so the conversation can be stored. */
  lemma IncomingIsNamed(m: ChatMessage, parse: Text -> Option<Json>)
    ensures GraphStore.OriginNamed(Incoming(m, parse).payload)
  {
    if m.content != [] { GraphStore.OriginsReadAreNamed(parse(Cleaned(m).content)); }
  }

  /** A tool's result, as the message that answers the call. */
  function Answer(callId: Text, content: Text): ChatMessage {
    ChatMessage(0, [], TOOL_ROLE, content, [], Null, callId, [], [])
  }

  // ---------------------------------------------------------------- the conversation

  class Conversation {
    var graph: MessageGraph

    constructor ()
      ensures fresh(graph) && graph.State() == EMPTY && Sound(graph.State())
    {
      graph := new MessageGraph();
    }

    ghost function Listed(): seq<Entry>
      requires Sound(graph.State())
      reads this, graph
    {
      Entries(ChainOf(graph.State()))
    }

    method Append(m: ChatMessage, parse: Text -> Option<Json>, id: MessageId)
      requires Sound(graph.State()) && Fresh(graph.State(), id)
      modifies graph
      ensures Sound(graph.State())
      ensures graph.State() == Appended(old(graph.State()), Incoming(m, parse), id)
      ensures Listed() == Push(old(Listed()), Incoming(m, parse))
    {
      AppendPushes(graph.State(), Incoming(m, parse), id);
      var clean := Normalized(m);
      graph.AppendAfterLeaf(ToPayload(clean, parse), m.timestamp, id);
    }

    method TurnCameFromPeer(turn: nat) returns (r: bool)
      requires Sound(graph.State())
      ensures r <==> TurnFromPeer(Listed(), turn)
    {
      LeafGrounded(graph.State());
      var chain := graph.Chain();
      if turn < 1 || turn > |chain| { return false; }
      r := chain[turn - 1].payload.User? && chain[turn - 1].payload.fromPeer != [];
    }

    method HasPendingToolCalls() returns (r: bool)
      requires Sound(graph.State())
      ensures r <==> Listed() != [] && Unfinished(Listed()[|Listed()| - 1].payload)
    {
      r := graph.LeafHasUnfinishedToolCalls();
    }

    /** A turn a peer asked is not the user's to take back; a call still pending refuses; else the tail is cut. */
    method RewindBefore(turn: nat) returns (verdict: Rewind)
      requires Sound(graph.State())
      modifies graph
      ensures Sound(graph.State())
      ensures verdict == RewindVerdict(old(Listed()), turn)
      ensures graph.State() == RewoundBefore(old(graph.State()), turn)
      ensures Listed() == if verdict == Rewound then old(Listed())[..turn - 1] else old(Listed())
    {
      ghost var (g, list) := (graph.State(), Listed());
      RewindIsList(g, turn);
      var peer := TurnCameFromPeer(turn);
      if peer { return FromPeer; }
      var pending := HasPendingToolCalls();
      if pending { return StillPending; }
      LeafGrounded(graph.State());
      var chain := graph.Chain();
      if turn < 1 || turn > |chain| { return OutOfRange; }
      var target := if turn == 1 then NO_ID else chain[turn - 2].id;
      OnChainInMap(graph.nodes, graph.leaf);
      var ok := graph.RewindTo(target);
      assert turn > 1 ==> chain[turn - 2] in chain;
      verdict := if ok then Rewound else OutOfRange;
    }

    method SealInterruptedToolCalls(ids: seq<MessageId>)
      requires Sound(graph.State())
      requires LeafUnfinished(graph.State()) ==>
        FreshIds(graph.State(), ids) && |ids| == |Unrun(graph.nodes[graph.leaf].payload.calls)|
      modifies graph
      ensures Sound(graph.State())
      ensures graph.State() == Sealed(old(graph.State()), ids)
      ensures Listed() == SealList(old(Listed()))
    {
      SealIsList(graph.State(), ids);
      graph.SealInterruptedToolCalls(ids);
    }

    method ClearHistory()
      modifies this
      ensures fresh(graph) && graph.State() == EMPTY && Sound(graph.State())
    {
      graph := new MessageGraph();
    }
  }
}
