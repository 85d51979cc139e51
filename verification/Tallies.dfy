/**
  What the provider and the tools say in a turn (src/runtime/executor.cpp), and what the turn's result makes of it.
*/
module Tallies {
  import opened Utf8
  import opened Messages

  datatype Call = Call(id: Text, name: Text, arguments: Json)

  /** A reply, or an exception; either may come after some content was streamed. */
  datatype Reply =
    | Replied(streamed: Text, content: Text, reasoning: seq<Reasoning>, calls: seq<Call>)
    | Threw(streamed: Text)

  /** A tool's result, or the result its exception is turned into. */
  datatype ToolResult = ToolResult(text: Text, blocked: bool, unaskable: bool)

  datatype Outcome = TurnCompleted | ToolBudgetReached

  datatype Result = Result(
    content: Text, wasStreamed: bool, toolCallCount: nat, rounds: nat, blocked: nat, unaskable: nat,
    outcome: Outcome, hasError: bool, onlyBlocked: bool, onlyUnaskable: bool)

  const NO_RESULT := Result([], false, 0, 0, 0, 0, TurnCompleted, false, false, false)

  /** What one round heard: the reply, and the results of the calls that ran. */
  datatype Heard = Heard(reply: Reply, ran: seq<ToolResult>)

  function Streamed(heard: seq<Heard>): Text {
    if heard == [] then [] else Streamed(heard[..|heard| - 1]) + heard[|heard| - 1].reply.streamed
  }

  function Results(heard: seq<Heard>): seq<ToolResult> {
    if heard == [] then [] else Results(heard[..|heard| - 1]) + heard[|heard| - 1].ran
  }

  function Refused(ran: seq<ToolResult>): nat {
    if ran == [] then 0 else Refused(ran[..|ran| - 1]) + if ran[|ran| - 1].blocked then 1 else 0
  }

  function Unaskable(ran: seq<ToolResult>): nat {
    if ran == [] then 0
    else
      var last := ran[|ran| - 1];
      Unaskable(ran[..|ran| - 1]) + if last.blocked && last.unaskable then 1 else 0
  }

  /** A result with these calls counted. */
  function Counting(r: Result, ran: seq<ToolResult>): Result {
    r.(toolCallCount := r.toolCallCount + |ran|, blocked := r.blocked + Refused(ran), unaskable := r.unaskable + Unaskable(ran))
  }

  lemma CountingOne(r: Result, ran: seq<ToolResult>, result: ToolResult)
    ensures var before := Counting(r, ran);
      Counting(r, ran + [result]) == before.(toolCallCount := before.toolCallCount + 1,
        blocked := before.blocked + (if result.blocked then 1 else 0),
        unaskable := before.unaskable + (if result.blocked && result.unaskable then 1 else 0))
  {
    assert (ran + [result])[..|ran|] == ran;
  }

  lemma {:induction false} CountingJoin(r: Result, a: seq<ToolResult>, b: seq<ToolResult>)
    ensures Counting(r, a + b) == Counting(Counting(r, a), b)
  {
    if b == [] {
      assert a + b == a;
    } else {
      var front, last := b[..|b| - 1], b[|b| - 1];
      CountingJoin(r, a, front);
      CountingOne(r, a + front, last);
      CountingOne(Counting(r, a), front, last);
      assert a + b == a + front + [last] && b == front + [last];
    }
  }

  lemma ResultsGrow(heard: seq<Heard>, h: Heard)
    ensures Results(heard + [h]) == Results(heard) + h.ran && Streamed(heard + [h]) == Streamed(heard) + h.reply.streamed
  {
    assert (heard + [h])[..|heard|] == heard;
  }

  /** All were refused exactly when none was let through, and all for want of somebody to ask when each was. */
  lemma {:induction false} RefusedAll(ran: seq<ToolResult>)
    ensures Unaskable(ran) <= Refused(ran) <= |ran|
    ensures Refused(ran) == |ran| <==> forall k | 0 <= k < |ran| :: ran[k].blocked
    ensures Unaskable(ran) == |ran| <==> forall k | 0 <= k < |ran| :: ran[k].blocked && ran[k].unaskable
  {
    if ran != [] {
      var front := ran[..|ran| - 1];
      RefusedAll(front);
      assert forall k | 0 <= k < |front| :: front[k] == ran[k];
    }
  }
}
