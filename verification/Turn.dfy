/**
  A turn of the tool loop as the rounds it went through (src/runtime/executor.cpp, `RunToolLoop`): which
  sequences of rounds the loop can make, and what they do to the conversation.
*/
module Turns {
  import opened Sequences
  import opened Wrappers
  import opened Utf8
  import opened Messages
  import opened GraphSpec
  import opened GraphRuns
  import opened Protocol

  /** How a round ended: with the calls it ran, or with the turn. */
  datatype Ending =
    | Called(asked: Entry, receipts: seq<Entry>, note: Option<Entry>, sealed: bool)
    | Answered
    | Failed
    | Stopped
    | Abandoned

  /** `wrapUp` is the message that asks for an answer, where the budget was found used up. */
  datatype Lap = Lap(wrapUp: Option<Entry>, end: Ending)

  function Ran(laps: seq<Lap>): nat {
    if laps == [] then 0
    else
      var end := laps[|laps| - 1].end;
      Ran(laps[..|laps| - 1]) + if end.Called? then |end.receipts| else 0
  }

  predicate WrapUpAsked(laps: seq<Lap>) { exists k | 0 <= k < |laps| :: laps[k].wrapUp.Some? }

  /** The calls a cancelled round left unrun. */
  predicate CutShort(end: Ending) { end.Called? && end.asked.payload.Assistant? && |end.receipts| < |end.asked.payload.calls| }

  predicate IsLap(lap: Lap) {
    && (lap.wrapUp.Some? ==> lap.wrapUp.value.payload.User?)
    && (lap.end.Called? ==> IsRound(lap.end.asked, lap.end.receipts, lap.end.note, lap.end.sealed))
  }

  /** The next round the loop may make: it asks for a wrap-up just when the budget is used up, and once only. */
  predicate MayFollow(budget: int, laps: seq<Lap>, lap: Lap) {
    && IsLap(lap)
    && (forall k | 0 <= k < |laps| :: laps[k].end.Called?)
    && !WrapUpAsked(laps)
    && (lap.wrapUp.Some? <==> Ran(laps) >= budget)
    && (laps != [] && CutShort(laps[|laps| - 1].end) ==> lap.end.Stopped?)
  }

  predicate Legal(budget: int, laps: seq<Lap>) {
    laps == [] || (Legal(budget, laps[..|laps| - 1]) && MayFollow(budget, laps[..|laps| - 1], laps[|laps| - 1]))
  }

  lemma LegalSnoc(budget: int, laps: seq<Lap>, lap: Lap)
    requires Legal(budget, laps) && MayFollow(budget, laps, lap)
    ensures Legal(budget, laps + [lap])
    ensures Ran(laps + [lap]) == Ran(laps) + if lap.end.Called? then |lap.end.receipts| else 0
    ensures WrapUpAsked(laps + [lap]) <==> lap.wrapUp.Some?
  {
    assert (laps + [lap])[..|laps|] == laps;
    if lap.wrapUp.Some? { assert (laps + [lap])[|laps|].wrapUp.Some?; }
  }

  lemma {:induction false} LegalPrefix(budget: int, laps: seq<Lap>, k: nat)
    requires Legal(budget, laps) && k <= |laps|
    ensures Legal(budget, laps[..k])
  {
    if k == |laps| {
      assert laps[..k] == laps;
    } else {
      LegalPrefix(budget, laps[..|laps| - 1], k);
      assert laps[..|laps| - 1][..k] == laps[..k];
    }
  }

  lemma LegalAt(budget: int, laps: seq<Lap>, k: nat)
    requires Legal(budget, laps) && k < |laps|
    ensures MayFollow(budget, laps[..k], laps[k])
  {
    LegalPrefix(budget, laps, k + 1);
    hide MayFollow;
    assert laps[..k + 1][..k] == laps[..k] && laps[..k + 1][k] == laps[k];
  }

  /** Rounds that were not cut short ran a call each. */
  lemma {:induction false} RanPerLap(budget: int, laps: seq<Lap>)
    requires Legal(budget, laps) && forall k | 0 <= k < |laps| :: laps[k].end.Called? && !CutShort(laps[k].end)
    ensures Ran(laps) >= |laps|
  {
    if laps != [] {
      var last := laps[|laps| - 1];
      assert IsLap(last);
      RanPerLap(budget, laps[..|laps| - 1]);
    }
  }

  /** Within a turn only the last two rounds can be the cut-short one and the one that stops after it. */
  lemma {:induction false} CutShortIsLast(budget: int, laps: seq<Lap>, k: nat)
    requires Legal(budget, laps) && k + 1 < |laps| && CutShort(laps[k].end)
    ensures k + 2 == |laps| && laps[k + 1].end.Stopped?
  {
    if k + 2 < |laps| {
      var front := laps[..|laps| - 1];
      assert MayFollow(budget, front, laps[|laps| - 1]);
      CutShortIsLast(budget, front, k);
    }
  }

  /** However provider and tools behave, a turn makes at most one round more than its budget. */
  lemma RoundsBounded(budget: int, laps: seq<Lap>)
    requires Legal(budget, laps)
    ensures |laps| <= (if budget > 0 then budget else 0) + 1
  {
    if |laps| >= 2 {
      var n := |laps| - 2;
      LegalPrefix(budget, laps, n);
      LegalPrefix(budget, laps, n + 1);
      assert laps[..n + 1][..n] == laps[..n] && laps[..n + 1][n] == laps[n];
      assert MayFollow(budget, laps[..n + 1], laps[n + 1]);
      forall k | 0 <= k < n ensures laps[k].end.Called? && !CutShort(laps[k].end) {
        assert laps[..n + 1][k] == laps[k];
        if CutShort(laps[k].end) { CutShortIsLast(budget, laps, k); }
      }
      forall k | 0 <= k < n ensures laps[..n][k].end.Called? && !CutShort(laps[..n][k].end) { assert laps[..n][k] == laps[k]; }
      RanPerLap(budget, laps[..n]);
      assert MayFollow(budget, laps[..n], laps[n]);
      assert laps[..n + 1][n].wrapUp == None;
    }
  }

  /** It asks for a wrap-up in its last round or not at all, and so at most once. */
  lemma OneWrapUp(budget: int, laps: seq<Lap>)
    requires Legal(budget, laps)
    ensures forall k | 0 <= k < |laps| - 1 :: laps[k].wrapUp == None
  {
    if laps != [] {
      var front := laps[..|laps| - 1];
      assert MayFollow(budget, front, laps[|laps| - 1]);
      forall k | 0 <= k < |laps| - 1 ensures laps[k].wrapUp == None { assert front[k] == laps[k]; }
    }
  }

  // ---------------------------------------------------------------- the conversation

  /** The conversation a round's request is built from. */
  function Asking(list: seq<Entry>, lap: Lap): seq<Entry> {
    if lap.wrapUp.Some? then Push(list, lap.wrapUp.value) else list
  }

  /** What the round's end makes of it. */
  function AfterEnd(asking: seq<Entry>, end: Ending): seq<Entry> {
    match end
    case Called(asked, receipts, note, sealed) => Round(asking + [asked], receipts, note, sealed)
    case Stopped => SealList(asking)
    case _ => asking
  }

  function AfterLap(list: seq<Entry>, lap: Lap): seq<Entry> { AfterEnd(Asking(list, lap), lap.end) }

  function Play(list: seq<Entry>, laps: seq<Lap>): seq<Entry> {
    if laps == [] then list else AfterLap(Play(list, laps[..|laps| - 1]), laps[|laps| - 1])
  }

  lemma PlaySnoc(list: seq<Entry>, laps: seq<Lap>, lap: Lap)
    ensures Play(list, laps + [lap]) == AfterLap(Play(list, laps), lap)
  {
    assert (laps + [lap])[..|laps|] == laps;
  }

  predicate CleanLap(lap: Lap) { lap.end.Called? && lap.end.asked.payload.Assistant? ==> Clean(lap.end.asked, lap.end.receipts, lap.end.note) }

  lemma AskingKeepsOrder(list: seq<Entry>, lap: Lap)
    requires IsLap(lap)
    ensures Orderly(Asking(list, lap)) <==> Orderly(list)
  {
    if lap.wrapUp.Some? { PushOther(list, lap.wrapUp.value); }
  }

  lemma {:induction false} PlayedOrder(budget: int, list: seq<Entry>, laps: seq<Lap>)
    requires Legal(budget, laps) && Orderly(list) && forall k | 0 <= k < |laps| :: laps[k].end.Called?
    ensures Orderly(Play(list, laps)) <==> forall k | 0 <= k < |laps| :: CleanLap(laps[k])
  {
    if laps != [] {
      var (front, lap) := (laps[..|laps| - 1], laps[|laps| - 1]);
      PlayedOrder(budget, list, front);
      AskingKeepsOrder(Play(list, front), lap);
      hide Orderly, Clean, Round, Push;
      RoundKeepsOrder(Asking(Play(list, front), lap), lap.end.asked, lap.end.receipts, lap.end.note, lap.end.sealed);
      assert forall k | 0 <= k < |front| :: front[k] == laps[k];
    }
  }

  /**
    In every request of a turn that began in order, each answer is followed at once by exactly its receipts, in
    call order, if and only if in every round before it all calls ran, or none ran and no note came between.
  */
  lemma RequestsInOrder(budget: int, list: seq<Entry>, laps: seq<Lap>, k: nat)
    requires Legal(budget, laps) && InOrder(list) && k < |laps|
    ensures InOrder(Asking(Play(list, laps[..k]), laps[k])) <==> forall i | 0 <= i < k :: CleanLap(laps[i])
  {
    var before := laps[..k];
    LegalPrefix(budget, laps, k);
    LegalPrefix(budget, laps, k + 1);
    assert laps[..k + 1][..k] == before && laps[..k + 1][k] == laps[k];
    OrderlyMeetsOrder(list);
    PlayedOrder(budget, list, before);
    AskingKeepsOrder(Play(list, before), laps[k]);
    OrderlyMeetsOrder(Asking(Play(list, before), laps[k]));
    assert forall i | 0 <= i < k :: before[i] == laps[i];
  }

  // ---------------------------------------------------------------- however the turn ends

  lemma AskingIsCalm(list: seq<Entry>, lap: Lap)
    requires IsLap(lap) && Calm(list)
    ensures Calm(Asking(list, lap))
  {}

  lemma {:induction false} PlayedIsCalm(budget: int, list: seq<Entry>, laps: seq<Lap>)
    requires Legal(budget, laps) && Calm(list) && forall k | 0 <= k < |laps| :: laps[k].end.Called?
    ensures Calm(Play(list, laps))
  {
    if laps != [] {
      var (front, lap) := (laps[..|laps| - 1], laps[|laps| - 1]);
      RoundIsCalm(Asking(Play(list, front), lap), lap.end.asked, lap.end.receipts, lap.end.note, lap.end.sealed);
    }
  }

  /** A turn that ends otherwise than by its calls adds only what its last round asked. */
  lemma LastLapAdds(budget: int, list: seq<Entry>, laps: seq<Lap>)
    requires Legal(budget, laps) && Calm(list) && laps != [] && !laps[|laps| - 1].end.Called?
    ensures var (front, lap) := (laps[..|laps| - 1], laps[|laps| - 1]);
      && (forall k | 0 <= k < |front| :: front[k].end.Called?)
      && Play(list, laps) == Asking(Play(list, front), lap)
  {
    var (front, lap) := (laps[..|laps| - 1], laps[|laps| - 1]);
    assert MayFollow(budget, front, lap);
    PlayedIsCalm(budget, list, front);
    AskingIsCalm(Play(list, front), lap);
    CalmNeedsNoSeal(Asking(Play(list, front), lap));
  }

  /** However a turn ends, it leaves a conversation in order exactly when every round of it was clean. */
  lemma TurnOrder(budget: int, list: seq<Entry>, laps: seq<Lap>)
    requires Legal(budget, laps) && Orderly(list)
    ensures Orderly(Play(list, laps)) <==> forall k | 0 <= k < |laps| :: CleanLap(laps[k])
  {
    hide Orderly, CleanLap, Play, Legal, Calm, Asking;
    OrderlyIsCalm(list);
    if laps == [] || laps[|laps| - 1].end.Called? {
      if laps != [] { FrontCalled(budget, laps); }
      PlayedOrder(budget, list, laps);
    } else {
      var (front, lap) := (laps[..|laps| - 1], laps[|laps| - 1]);
      LastLapAdds(budget, list, laps);
      LegalPrefix(budget, laps, |laps| - 1);
      PlayedOrder(budget, list, front);
      LastIsLap(budget, laps);
      AskingKeepsOrder(Play(list, front), lap);
      NotCalledIsClean(lap);
      FrontClean(laps, front);
    }
  }

  lemma LastIsLap(budget: int, laps: seq<Lap>)
    requires Legal(budget, laps) && laps != []
    ensures IsLap(laps[|laps| - 1])
  {}

  lemma FrontClean(laps: seq<Lap>, front: seq<Lap>)
    requires laps != [] && front == laps[..|laps| - 1]
    ensures (forall k | 0 <= k < |laps| :: CleanLap(laps[k]))
      <==> CleanLap(laps[|laps| - 1]) && forall k | 0 <= k < |front| :: CleanLap(front[k])
  {
    hide CleanLap;
    assert forall k | 0 <= k < |front| :: front[k] == laps[k];
  }

  lemma FrontSettles(laps: seq<Lap>, front: seq<Lap>)
    requires laps != [] && front == laps[..|laps| - 1]
    ensures (forall k | 0 <= k < |laps| :: Settles(laps[k]))
      <==> Settles(laps[|laps| - 1]) && forall k | 0 <= k < |front| :: Settles(front[k])
  {
    hide Settles;
    assert forall k | 0 <= k < |front| :: front[k] == laps[k];
  }

  lemma FrontCalled(budget: int, laps: seq<Lap>)
    requires Legal(budget, laps) && laps != []
    ensures forall k | 0 <= k < |laps| - 1 :: laps[k].end.Called?
  {
    var front := laps[..|laps| - 1];
    assert MayFollow(budget, front, laps[|laps| - 1]);
    forall k | 0 <= k < |laps| - 1 ensures laps[k].end.Called? { assert front[k] == laps[k]; }
  }

  lemma NotCalledIsClean(lap: Lap)
    requires !lap.end.Called?
    ensures CleanLap(lap)
  {}

  // ---------------------------------------------------------------- a turn cancelled among its calls

  const TWO_CALLS := Entry([], Assistant([], [], [ToolCall([0x61], [], Null, Pending), ToolCall([0x62], [], Null, Pending)]))
  const FIRST_RECEIPT := Entry([], Receipt([0x61], [], [], None))
  const CUT_SHORT: seq<Lap> := [Lap(None, Called(TWO_CALLS, [FIRST_RECEIPT], None, true)), Lap(None, Stopped)]

  /** One of two calls ran, then the cancel was seen and the next request failed: a turn any larger budget allows, out of order. */
  lemma CutShortTurnIsOutOfOrder(budget: int, list: seq<Entry>)
    requires budget >= 2 && InOrder(list)
    ensures Legal(budget, CUT_SHORT) && !InOrder(Play(list, CUT_SHORT))
  {
    var (called, stopped) := (CUT_SHORT[0], CUT_SHORT[1]);
    assert Answers(FIRST_RECEIPT.payload, TWO_CALLS.payload.calls[0]);
    assert IsLap(called) && !CleanLap(called);
    assert MayFollow(budget, [], called);
    LegalSnoc(budget, [], called);
    assert [] + [called] == [called];
    assert MayFollow(budget, [called], stopped);
    LegalSnoc(budget, [called], stopped);
    assert [called] + [stopped] == CUT_SHORT;
    hide Orderly, InOrder, Play, CleanLap, Legal;
    OrderlyMeetsOrder(list);
    OrderlyMeetsOrder(Play(list, CUT_SHORT));
    TurnOrder(budget, list, CUT_SHORT);
  }

  // ---------------------------------------------------------------- records

  /** Each receipt of the round carries its call's id. */
  predicate Carries(lap: Lap) {
    lap.end.Called? && lap.end.asked.payload.Assistant? ==>
      && |lap.end.receipts| <= |lap.end.asked.payload.calls|
      && forall k | 0 <= k < |lap.end.receipts| ::
        lap.end.receipts[k].payload.Receipt? && lap.end.receipts[k].payload.callId == lap.end.asked.payload.calls[k].id != []
  }

  /** All its calls ran, no two ids alike, or none ran and no note came between. */
  predicate Settles(lap: Lap) {
    lap.end.Called? && lap.end.asked.payload.Assistant? ==>
      || (|lap.end.receipts| == |lap.end.asked.payload.calls| && DistinctIds(lap.end.asked.payload.calls))
      || (lap.end.receipts == [] && lap.end.note == None)
  }

  lemma AskingPending(list: seq<Entry>, lap: Lap)
    requires IsLap(lap)
    ensures NonePending(Asking(list, lap)) <==> NonePending(list)
  {
    if lap.wrapUp.Some? {
      var e := lap.wrapUp.value;
      NonePendingParts(list, e, []);
      assert list + [e] + [] == list + [e];
    }
  }

  lemma NonePendingIsCalm(list: seq<Entry>)
    requires NonePending(list)
    ensures Calm(list)
  {
    if list != [] { assert !HasPending(CallsOf(list[|list| - 1])); }
  }

  lemma {:induction false} CalledPending(budget: int, list: seq<Entry>, laps: seq<Lap>)
    requires Legal(budget, laps) && forall k | 0 <= k < |laps| :: laps[k].end.Called? && Carries(laps[k])
    ensures NonePending(Play(list, laps)) <==> NonePending(list) && forall k | 0 <= k < |laps| :: Settles(laps[k])
  {
    if laps != [] {
      var (front, lap) := (laps[..|laps| - 1], laps[|laps| - 1]);
      hide NonePending, Asking, Carries, Settles;
      forall k | 0 <= k < |front| ensures front[k] == laps[k] && front[k].end.Called? && Carries(front[k]) {}
      CalledPending(budget, list, front);
      LastIsLap(budget, laps);
      AskingPending(Play(list, front), lap);
      LapPending(Asking(Play(list, front), lap), lap);
      FrontSettles(laps, front);
    }
  }

  lemma LapPending(asking: seq<Entry>, lap: Lap)
    requires IsLap(lap) && lap.end.Called? && Carries(lap)
    ensures NonePending(AfterEnd(asking, lap.end)) <==> NonePending(asking) && Settles(lap)
  {
    hide NonePending, DistinctIds, Round;
    RoundSettles(asking, lap.end.asked, lap.end.receipts, lap.end.note, lap.end.sealed);
  }

  /** Where receipts carry their calls' ids, a turn leaves no record pending exactly when every round settles its calls. */
  lemma NoRecordLeftPending(budget: int, list: seq<Entry>, laps: seq<Lap>)
    requires Legal(budget, laps) && NonePending(list) && forall k | 0 <= k < |laps| :: Carries(laps[k])
    ensures NonePending(Play(list, laps)) <==> forall k | 0 <= k < |laps| :: Settles(laps[k])
  {
    NonePendingIsCalm(list);
    if laps == [] || laps[|laps| - 1].end.Called? {
      if laps != [] { FrontCalled(budget, laps); }
      CalledPending(budget, list, laps);
    } else {
      var (front, lap) := (laps[..|laps| - 1], laps[|laps| - 1]);
      LastLapAdds(budget, list, laps);
      LegalPrefix(budget, laps, |laps| - 1);
      LastIsLap(budget, laps);
      FrontSettles(laps, front);
      hide NonePending, Play, Asking, Carries, Legal;
      forall k | 0 <= k < |front| ensures front[k] == laps[k] && Carries(front[k]) {}
      CalledPending(budget, list, front);
      AskingPending(Play(list, front), lap);
    }
  }
}
