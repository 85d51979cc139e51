/**
  What a conversation is made of (include/pu/session/message.hpp, include/pu/paging/origin.hpp), and
  the JSON values it is stored as.
*/
module Messages {
  import opened Wrappers
  import opened Utf8

  datatype Json =
    | Null
    | Bool(truth: bool)
    | Int64(int)
    | UInt64(nat)
    | Double(real)
    | Str(text: Text)
    | Arr(items: seq<Json>)
    | Obj(fields: map<string, Json>)

  type MessageId = Text

  /** An absent id: the parent of a first message, the leaf of an empty conversation. */
  const NO_ID: MessageId := []

  datatype Reasoning = Reasoning(text: Text, signature: Text, raw: Json)

  datatype CallStatus = Pending | Completed | Interrupted

  datatype ToolCall = ToolCall(id: Text, name: Text, arguments: Json, status: CallStatus)

  /** Which question a page answers, which run answered it, and how late that run was. */
  datatype Origin = Origin(source: Text, buffer: Text, rank: nat)

  datatype Payload =
    | User(content: Text, fromPeer: Text)
    | Assistant(content: Text, reasoning: seq<Reasoning>, calls: seq<ToolCall>)
    | System(content: Text)
    | Receipt(callId: Text, toolName: Text, content: Text, origin: Option<Origin>)

  datatype Node = Node(id: MessageId, timestamp: Text, payload: Payload, parent: MessageId)

  predicate HasPending(calls: seq<ToolCall>) {
    exists k | 0 <= k < |calls| :: calls[k].status == Pending
  }

  predicate Unfinished(p: Payload) { p.Assistant? && HasPending(p.calls) }

  /** A fixed message of the program, as bytes. */
  function Ascii(s: string): Text {
    seq(|s|, i requires 0 <= i < |s| => if (s[i] as int) < 128 then (s[i] as int) as byte else 0x3F)
  }

  const USER_ROLE := Ascii("user")
  const ASSISTANT_ROLE := Ascii("assistant")
  const SYSTEM_ROLE := Ascii("system")
  const TOOL_ROLE := Ascii("tool")

  const CANCELLED_RECEIPT := Ascii("The user cancelled the turn before this call ran, so it produced no result. " +
    "Wait for the user's next message before deciding whether this call is still worth making")
}
