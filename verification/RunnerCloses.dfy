/**
  A page's close and the cancel it asks for are two steps (src/app/serve_runner.cpp, `Detach`): when the
  cancel can set the token of a turn other than the one that ran when the page left, and what a turn that
  throws leaves behind.
*/
module RunnerCloses {
  import opened Wrappers
  import opened Runner
  import opened RunnerSafety
  import opened RunnerDelivery
  import opened RunnerTokens

  // ---------------------------------------------------------------- between the close and its cancel

  /** A turn somebody asked for is still to begin. */
  predicate Awaits(s: State) {
    || (exists i | 0 <= i < |s.queue.jobs| :: !Nobodys(s.queue.jobs[i]))
    || ((s.worker.stage.Taken? || s.worker.stage.Recorded? || s.worker.stage.Started?) && !Nobodys(s.worker.job))
  }

  /** The cancel of the page that left would set the token of a turn it did not leave. */
  predicate CancelsAnother(s: State)
    requires s.sockets.LeftAlone?
  {
    s.tokens.token.Some? && s.tokens.token != s.sockets.mine
  }

  /** The step of that cancel sets this token in the name of the page that left. */
  predicate SetsFor(s: State, turn: Turn)
    requires s.sockets.LeftAlone?
  {
    var after := SocketStep(s, CancelLeft).tokens;
    && |after.causes| == |s.tokens.causes| + 1 && after.causes[|s.tokens.causes|] == Cause(turn, ByClose(s.sockets.conn))
    && turn in after.raised
  }

  lemma CancelLeftSets(s: State)
    requires s.sockets.LeftAlone?
    ensures CancelsAnother(s) <==> exists t: Turn :: SetsFor(s, t) && Some(t) != s.sockets.mine
  {
    if CancelsAnother(s) { assert SetsFor(s, s.tokens.token.value); }
  }

  /** Until the cancel comes, whatever the worker does, it would set no other turn's token. */
  ghost predicate CloseSpares(s: State)
    requires s.sockets.LeftAlone?
  {
    forall run | IsRun(s, run) && CancelLeft !in run :: SparedAfter(s, run)
  }

  predicate SparedAfter(s: State, run: seq<Action>)
    requires s.sockets.LeftAlone? && IsRun(s, run)
  {
    var t := After(s, run); t.sockets == s.sockets && !CancelsAnother(t)
  }

  /** Only the worker moves until then. */
  lemma OnlyTheWorkerMoves(s: State, a: Action)
    requires s.sockets.LeftAlone? && Enabled(s, a) && a != CancelLeft
    ensures WorkerEnabled(s, a) && Step(s, a) == WorkerStep(s, a) && Step(s, a).sockets == s.sockets
  {
    WorkerLeavesSockets(s, a);
    hide WorkerStep;
  }

  lemma QuietStaysQuiet(s: State, a: Action)
    requires s.sockets.LeftAlone? && WorkerEnabled(s, a) && LeftInv(s.tokens, s.worker, s.sockets)
    requires !Awaits(s) && !CancelsAnother(s)
    ensures var t := WorkerStep(s, a); t.sockets == s.sockets && !Awaits(t) && !CancelsAnother(t)
  {
    hide Begin, LogNext, FinishLast, EndsSilently, Deliver;
  }

  lemma {:induction false} QuietRun(s: State, run: seq<Action>)
    requires Inv(s) && s.sockets.LeftAlone? && !Awaits(s) && !CancelsAnother(s) && IsRun(s, run) && CancelLeft !in run
    ensures SparedAfter(s, run)
    decreases |run|
  {
    hide Inv, Awaits, CancelsAnother, Step, WorkerStep, Enabled, WorkerEnabled;
    if run != [] {
      OnlyTheWorkerMoves(s, run[0]);
      LeftOfInv(s);
      QuietStaysQuiet(s, run[0]);
      StepKeepsInv(s, run[0]);
      QuietRun(Step(s, run[0]), run[1..]);
    }
  }

  lemma LeftOfInv(s: State)
    requires Inv(s)
    ensures LeftInv(s.tokens, s.worker, s.sockets) && StageInv(s.tokens, s.book.begun, s.worker.stage)
    ensures HandInv(s.book, s.worker)
  {
    hide BookInv, PageInv, DeliveryInv, PastInv, CauseInv;
  }

  // ---------------------------------------------------------------- the worker gets on

  /** The step the worker takes next when it says nothing more in this turn. */
  function Onward(s: State): Action {
    var w := s.worker;
    if w.sending.Logged? then Aim
    else if w.sending.Aimed? then SendFrame
    else match w.stage
      case Idle => Take
      case Taken => PushRecord
      case Recorded => if Nobodys(w.job) then Skip else Action.Run
      case Started => Install
      case Processing => ReadAsked
      case Asked => ClearToken
      case Cleared => if EndsSilently(s) then EndSilent else SpeakOn
      case Closing => EndTurn
      case Failing => EndTurn
      case Ending => FinishRecord
  }

  function StageRank(stage: Stage): nat {
    match stage
    case Processing => 9
    case Asked => 8
    case Cleared => 7
    case Closing => 6
    case Failing => 5
    case Ending => 4
    case Taken => 3
    case Recorded => 2
    case Started => 1
    case Idle => 0
  }

  function SendingRank(k: Sending): nat { if k.Logged? then 2 else if k.Aimed? then 1 else 0 }

  lemma OnwardGoesOn(s: State)
    requires HandInv(s.book, s.worker) && Awaits(s) && !s.worker.stage.Started?
    ensures WorkerEnabled(s, Onward(s))
    ensures var t := WorkerStep(s, Onward(s));
      && Awaits(t)
      && (|t.queue.jobs| < |s.queue.jobs|
          || (t.queue.jobs == s.queue.jobs
              && (StageRank(t.worker.stage) < StageRank(s.worker.stage)
                  || (t.worker.stage == s.worker.stage && SendingRank(t.worker.sending) < SendingRank(s.worker.sending)))))
  {
    hide Begin, LogNext, FinishLast, EndsSilently, Deliver;
    if s.worker.stage.Idle? && s.worker.sending.Nothing? {
      var i :| 0 <= i < |s.queue.jobs| && !Nobodys(s.queue.jobs[i]);
      if i > 0 { assert s.queue.jobs[1..][i - 1] == s.queue.jobs[i]; }
    }
  }

  /** A turn still to begin can begin before the cancel comes, and then its token is the one installed. */
  lemma {:induction false} AwaitedTurnBegins(s: State) returns (run: seq<Action>)
    requires Inv(s) && s.sockets.LeftAlone? && Awaits(s)
    ensures IsRun(s, run) && CancelLeft !in run && !SparedAfter(s, run)
    decreases |s.queue.jobs|, StageRank(s.worker.stage), SendingRank(s.worker.sending)
  {
    LeftOfInv(s);
    if s.worker.stage.Started? {
      InstallIsAnothers(s);
      run := [Install];
      assert IsRun(Step(s, Install), run[1..]);
    } else {
      var a := Onward(s);
      OnwardGoesOn(s);
      WorkerLeavesSockets(s, a);
      StepKeepsInv(s, a);
      hide Inv, Awaits, CancelsAnother, WorkerStep, WorkerEnabled, Onward, HandInv, StageInv, LeftInv;
      var rest := AwaitedTurnBegins(Step(s, a));
      run := [a] + rest;
      NotTheCancel(s);
      assert run[1..] == rest;
    }
  }

  lemma NotTheCancel(s: State)
    ensures Onward(s) != CancelLeft
  {}

  lemma InstallIsAnothers(s: State)
    requires Inv(s) && s.sockets.LeftAlone? && s.worker.stage.Started?
    ensures WorkerEnabled(s, Install)
    ensures var t := WorkerStep(s, Install); t.sockets == s.sockets && CancelsAnother(t)
  {
    LeftOfInv(s);
    hide Inv;
  }

  /**
    In any reachable state in which a page left the session alone and its cancel is still to come: the cancel can
    set no other turn's token exactly when none is installed now, and no turn anybody asked for is still to begin.
  */
  lemma CloseSparesIff(run: seq<Action>)
    requires IsRun(START, run) && After(START, run).sockets.LeftAlone?
    ensures var s := After(START, run); CloseSpares(s) <==> !CancelsAnother(s) && !Awaits(s)
  {
    StartHolds();
    RunKeepsInv(START, run);
    var s := After(START, run);
    hide Inv, Awaits, CancelsAnother;
    if CancelsAnother(s) {
      NothingRun(s);
      assert !SparedAfter(s, []);
    } else if Awaits(s) {
      var on := AwaitedTurnBegins(s);
      assert IsRun(s, on) && CancelLeft !in on && !SparedAfter(s, on);
    }
    if !CancelsAnother(s) && !Awaits(s) {
      forall on | IsRun(s, on) && CancelLeft !in on ensures SparedAfter(s, on) { QuietRun(s, on); }
    }
  }

  lemma NothingRun(s: State)
    ensures IsRun(s, []) && After(s, []) == s
  {}

  /** At the close itself: it can cancel no turn but the one running exactly when no other is waiting to begin. */
  lemma DetachSparesIff(run: seq<Action>)
    requires IsRun(START, run) && SocketEnabled(After(START, run), Detach)
    requires After(START, run).pages.attached == Some(After(START, run).sockets.conn)
    ensures var s := After(START, run); var t := SocketStep(s, Detach);
      t.sockets == LeftAlone(s.sockets.conn, s.tokens.token) && (CloseSpares(t) <==> !Awaits(s))
  {
    var s := After(START, run);
    var t := SocketStep(s, Detach);
    assert !WorkerEnabled(s, Detach);
    assert Step(s, Detach) == t;
    hide CloseSpares, Step, Enabled;
    RunOnDetach(run);
    CloseSparesIff(run + [Detach]);
  }

  lemma RunOnDetach(run: seq<Action>)
    requires IsRun(START, run) && SocketEnabled(After(START, run), Detach)
    ensures IsRun(START, run + [Detach]) && After(START, run + [Detach]) == Step(After(START, run), Detach)
  {
    RunOn(START, run, Detach);
  }

  // ---------------------------------------------------------------- a cancel that comes late

  lemma {:induction false} RunOn(s: State, run: seq<Action>, a: Action)
    requires IsRun(s, run) && Enabled(After(s, run), a)
    ensures IsRun(s, run + [a]) && After(s, run + [a]) == Step(After(s, run), a)
    decreases |run|
  {
    hide Enabled, Step;
    if run == [] {
      assert [] + [a] == [a];
      assert IsRun(Step(s, a), [a][1..]);
    } else {
      assert (run + [a])[1..] == run[1..] + [a];
      RunOn(Step(s, run[0]), run[1..], a);
    }
  }

  const PAGE := Conn(0, [])
  const PAGES_TURN := Job(Some(PAGE), [])
  const PEERS_TURN := Job(None, [0x70])

  const WAITING := State(
    Queue([PAGES_TURN, PEERS_TURN], false, false), Book([], 0, []),
    Pages(Some(PAGE), {}, {PAGE}, map[PAGE := Attached], map[PAGE := []], map[PAGE := Since(0, None)]),
    Tokens(None, false, {}, [], None, {}), Worker(Idle, Job(None, []), false, Nothing), Free)

  /** A page's turn runs, a peer's waits behind it. */
  const RUNNING := State(
    Queue([PEERS_TURN], false, true), Book([Record(0, false, [])], 1, []),
    Pages(Some(PAGE), {}, {PAGE}, map[PAGE := Attached], map[PAGE := []], map[PAGE := Since(0, None)]),
    Tokens(Some(0), false, {}, [], Some(0), {}), Worker(Processing, PAGES_TURN, false, Nothing), Free)

  lemma ReachRunning() returns (run: seq<Action>)
    ensures IsRun(START, run) && After(START, run) == RUNNING
  {
    run := [];
    RunOn(START, run, Attach(PAGE));
    run := run + [Attach(PAGE)];
    RunOn(START, run, EnterPage);
    run := run + [EnterPage];
    RunOn(START, run, Submit(PAGE));
    run := run + [Submit(PAGE)];
    RunOn(START, run, SubmitFromPeer([0x70]));
    run := run + [SubmitFromPeer([0x70])];
    assert After(START, run) == WAITING;
    run := ReachFromWaiting(run);
  }

  lemma ReachFromWaiting(before: seq<Action>) returns (run: seq<Action>)
    requires IsRun(START, before) && After(START, before) == WAITING
    ensures IsRun(START, run) && After(START, run) == RUNNING
  {
    run := before;
    RunOn(START, run, Take);
    run := run + [Take];
    RunOn(START, run, PushRecord);
    run := run + [PushRecord];
    RunOn(START, run, Action.Run);
    run := run + [Action.Run];
    RunOn(START, run, Install);
    run := run + [Install];
  }

  const PAST_PAGE := Pages(None, {PAGE}, {}, map[PAGE := Gone], map[PAGE := []], map[PAGE := Since(0, None)])

  /** The page has closed, with its cancel still to come. */
  const CLOSED := RUNNING.(pages := PAST_PAGE, sockets := LeftAlone(PAGE, Some(0)))

  lemma ReachClosed(before: seq<Action>) returns (run: seq<Action>)
    requires IsRun(START, before) && After(START, before) == RUNNING
    ensures IsRun(START, run) && After(START, run) == CLOSED
  {
    hide Begin, LogNext, FinishLast, EndsSilently, Deliver, Admit, Hand, Refuse, Refuses, Cancelled, Threw, NewToken, FramesForNextPage, SinceNow;
    run := before;
    RunOn(START, run, Close(PAGE));
    run := run + [Close(PAGE)];
    RunOn(START, run, LeavePage);
    run := run + [LeavePage];
    RunOn(START, run, Detach);
    run := run + [Detach];
  }

  /** The worker is done with the page's turn. */
  const LEFT := State(
    Queue([PEERS_TURN], false, false), Book([Record(0, true, [])], 1, []), PAST_PAGE,
    Tokens(None, false, {}, [], Some(0), {}), Worker(Idle, PAGES_TURN, false, Nothing), LeftAlone(PAGE, Some(0)))

  lemma ReachLeft(before: seq<Action>) returns (run: seq<Action>)
    requires IsRun(START, before) && After(START, before) == CLOSED
    ensures IsRun(START, run) && After(START, run) == LEFT
  {
    run := before;
    RunOn(START, run, ReadAsked);
    run := run + [ReadAsked];
    RunOn(START, run, ClearToken);
    run := run + [ClearToken];
    RunOn(START, run, SpeakOn);
    run := run + [SpeakOn];
    RunOn(START, run, EndTurn);
    run := run + [EndTurn];
    RunOn(START, run, FinishRecord);
    run := run + [FinishRecord];
  }

  /**
    A close and its cancel are two steps: where the page's own turn ends between them, the cancel sets the
    token of the next turn, here one a peer asked for.
  */
  lemma CloseMayCancelTheNextTurn() returns (run: seq<Action>)
    ensures IsRun(START, run) && var s := After(START, run);
      s.worker.stage.Processing? && s.worker.job == PEERS_TURN && s.tokens.token == Some(1) && 1 in s.tokens.raised
  {
    run := ReachRunning();
    run := ReachClosed(run);
    run := ReachLeft(run);
    run := ReachNext(run);
    RunOn(START, run, CancelLeft);
    run := run + [CancelLeft];
  }

  const NEXT := State(
    Queue([], false, true), Book([Record(0, true, []), Record(1, false, [])], 2, []), PAST_PAGE,
    Tokens(Some(1), false, {}, [], Some(1), {}), Worker(Processing, PEERS_TURN, false, Nothing), LeftAlone(PAGE, Some(0)))

  lemma ReachNext(before: seq<Action>) returns (run: seq<Action>)
    requires IsRun(START, before) && After(START, before) == LEFT
    ensures IsRun(START, run) && After(START, run) == NEXT
  {
    run := before;
    RunOn(START, run, Take);
    run := run + [Take];
    RunOn(START, run, PushRecord);
    run := run + [PushRecord];
    RunOn(START, run, Action.Run);
    run := run + [Action.Run];
    RunOn(START, run, Install);
    run := run + [Install];
  }

  /** A turn that throws leaves its token installed when it is over, for a cancel between turns to set. */
  lemma ThrownTokenStays() returns (run: seq<Action>)
    ensures IsRun(START, run) && var s := After(START, run);
      Between(s.worker.stage) && s.tokens.token == Some(0) && s.tokens.threw == {0} && s.book.turns == [Record(0, true, [])]
  {
    run := ReachRunning();
    RunOn(START, run, Throw);
    run := run + [Throw];
    RunOn(START, run, EndTurn);
    run := run + [EndTurn];
    RunOn(START, run, FinishRecord);
    run := run + [FinishRecord];
  }
}
