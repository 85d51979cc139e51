/**
  Which cancel tokens are set, by whom and when (src/app/serve_runner.cpp), and the results over every run of
  the two threads.
*/
module RunnerTokens {
  import opened Wrappers
  import opened Runner
  import opened RunnerSafety
  import opened RunnerDelivery

  /** No turn is running under a token of its own. */
  predicate Between(stage: Stage) { stage.Idle? || stage.Taken? || stage.Recorded? || stage.Started? }

  predicate Holding(stage: Stage) { stage.Processing? || stage.Asked? }

  predicate Spent(stage: Stage) { stage.Cleared? || stage.Closing? }

  /** The last token installed, where its turn threw and so left it there. */
  function LeftOver(t: Tokens): Option<Turn> {
    if t.installed.Some? && t.installed.value in t.threw then t.installed else None
  }

  predicate StageInv(t: Tokens, begun: nat, stage: Stage) {
    && (!stage.Idle? && !stage.Taken? ==> begun > 0)
    && (t.installed.Some? ==> t.installed.value < begun)
    && (stage.Recorded? || stage.Started? ==> t.installed == None || t.installed.value + 1 < begun)
    && (Holding(stage) ==> t.token == t.installed == Some(begun - 1) && begun - 1 !in t.threw)
    && (Spent(stage) ==> t.token == None && t.installed == Some(begun - 1) && begun - 1 !in t.threw)
    && (!Holding(stage) && !Spent(stage) ==> t.token == LeftOver(t))
  }

  /** Tokens are set or thrown with only once installed. */
  ghost predicate PastInv(t: Tokens) {
    forall x | x in t.raised || x in t.threw :: t.installed.Some? && x <= t.installed.value
  }

  /** A token is set just when something set it; a close that did was the attached page's. */
  ghost predicate CauseInv(t: Tokens, p: Pages) {
    && (forall x :: x in t.raised <==> exists i | 0 <= i < |t.causes| :: t.causes[i].turn == x)
    && (forall i | 0 <= i < |t.causes| && t.causes[i].why.ByClose? :: Has(p.status, t.causes[i].why.conn, Gone))
  }

  /** A turn that starts is somebody's; the token a page left behind is no later than the last installed. */
  predicate LeftInv(t: Tokens, w: Worker, k: Sockets) {
    && (w.stage.Started? ==> !Nobodys(w.job))
    && (k.LeftAlone? && k.mine.Some? ==> t.installed.Some? && k.mine.value <= t.installed.value)
  }

  ghost predicate TokenInv(s: State) {
    && StageInv(s.tokens, s.book.begun, s.worker.stage) && PastInv(s.tokens) && CauseInv(s.tokens, s.pages)
    && LeftInv(s.tokens, s.worker, s.sockets)
  }

  lemma LeftKept(s: State, a: Action)
    requires TokenInv(s) && WorkerEnabled(s, a)
    ensures var t := WorkerStep(s, a); LeftInv(t.tokens, t.worker, t.sockets)
  {
    hide Begin, LogNext, FinishLast, EndsSilently, CauseInv, PastInv, Deliver;
  }

  lemma LeftKeptBySockets(s: State, a: Action)
    requires TokenInv(s) && SocketEnabled(s, a)
    ensures var t := SocketStep(s, a); LeftInv(t.tokens, t.worker, t.sockets)
  {
    hide CauseInv, PastInv, Admit, Leave, Hand, Refuse, Refuses;
  }

  lemma CancelKeepsTokens(t: Tokens, why: Reason, begun: nat, stage: Stage, p: Pages)
    requires StageInv(t, begun, stage) && PastInv(t) && CauseInv(t, p) && (why.ByClose? ==> Has(p.status, why.conn, Gone))
    ensures StageInv(Cancelled(t, why), begun, stage) && PastInv(Cancelled(t, why)) && CauseInv(Cancelled(t, why), p)
  {
    var u := Cancelled(t, why);
    if t.token.Some? {
      assert u.causes[|t.causes|] == Cause(t.token.value, why);
      forall x ensures x in u.raised <==> exists i | 0 <= i < |u.causes| :: u.causes[i].turn == x {
        if x in t.raised {
          var i :| 0 <= i < |t.causes| && t.causes[i].turn == x;
          assert u.causes[i].turn == x;
        }
        if i :| 0 <= i < |t.causes| && u.causes[i].turn == x { assert t.causes[i].turn == x; }
      }
    }
  }

  lemma WorkerKeepsTokens(s: State, a: Action)
    requires TokenInv(s) && WorkerEnabled(s, a)
    ensures TokenInv(WorkerStep(s, a))
  {
    HandAfter(s.book);
    hide Begin, LogNext, FinishLast, EndsSilently, CauseInv, PastInv, StageInv, LeftInv, Deliver;
    LeftKept(s, a);
    StageKept(s, a);
    PastKept(s, a);
    CausesKept(s, a);
  }

  lemma StageKept(s: State, a: Action)
    requires TokenInv(s) && WorkerEnabled(s, a)
    ensures var t := WorkerStep(s, a); StageInv(t.tokens, t.book.begun, t.worker.stage)
  {
    HandAfter(s.book);
    hide Begin, LogNext, FinishLast, EndsSilently, CauseInv, Deliver;
  }

  lemma PastKept(s: State, a: Action)
    requires TokenInv(s) && WorkerEnabled(s, a)
    ensures PastInv(WorkerStep(s, a).tokens)
  {
    hide Begin, LogNext, FinishLast, EndsSilently, CauseInv, Deliver;
  }

  lemma CausesKept(s: State, a: Action)
    requires CauseInv(s.tokens, s.pages) && WorkerEnabled(s, a)
    ensures CauseInv(WorkerStep(s, a).tokens, WorkerStep(s, a).pages)
  {
    hide Begin, LogNext, FinishLast, EndsSilently;
  }

  lemma StatusesGrow(s: State, a: Action)
    requires PageInv(s) && SocketEnabled(s, a)
    ensures forall c | Has(s.pages.status, c, Gone) :: Has(SocketStep(s, a).pages.status, c, Gone)
  {
    hide AdmittedInv, AimInv, Cancelled;
  }

  lemma SocketKeepsTokens(s: State, a: Action)
    requires TokenInv(s) && PageInv(s) && SocketEnabled(s, a)
    ensures TokenInv(SocketStep(s, a))
  {
    var (t, n, stage) := (s.tokens, s.book.begun, s.worker.stage);
    var after := SocketStep(s, a);
    StatusesGrow(s, a);
    assert CauseInv(t, after.pages);
    LeftKeptBySockets(s, a);
    hide CauseInv, PastInv, StageInv, LeftInv, PageInv, Cancelled, Admit, Leave, Hand, Refuse, Refuses;
    match a
    case PageCancel(c) => CancelKeepsTokens(t, ByPage(c), n, stage, after.pages);
    case CancelLeft =>
      LeftAloneIsGone(s);
      CancelKeepsTokens(t, ByClose(s.sockets.conn), n, stage, after.pages);
    case StopToken => CancelKeepsTokens(t, ByStop, n, stage, after.pages);
    case _ =>
  }

  lemma LeftAloneIsGone(s: State)
    requires PageInv(s) && s.sockets.LeftAlone?
    ensures Has(s.pages.status, s.sockets.conn, Gone)
  {}

  // ---------------------------------------------------------------- every run

  ghost predicate Inv(s: State) {
    BookInv(s.book) && HandInv(s.book, s.worker) && PageInv(s) && DeliveryInv(s) && TokenInv(s)
  }

  lemma StartHolds()
    ensures Inv(START)
  {}

  lemma StepKeepsInv(s: State, a: Action)
    requires Inv(s) && Enabled(s, a)
    ensures Inv(Step(s, a))
  {
    hide BookInv, HandInv, PageInv, TokenInv, WorkerStep, SocketStep, WorkerEnabled, SocketEnabled, Well;
    if WorkerEnabled(s, a) {
      WorkerKeepsBook(s, a);
      WorkerKeepsPages(s, a);
      forall c, f ensures Well(WorkerStep(s, a), c, f) { WorkerIsWell(s, a, c, f); }
      WorkerKeepsTokens(s, a);
    } else {
      SocketKeepsBook(s, a);
      SocketKeepsPages(s, a);
      forall c, f ensures Well(SocketStep(s, a), c, f) { SocketIsWell(s, a, c, f); }
      SocketKeepsTokens(s, a);
    }
  }

  lemma SocketKeepsBook(s: State, a: Action)
    requires SocketEnabled(s, a)
    ensures SocketStep(s, a).book == s.book && SocketStep(s, a).worker == s.worker
  {
    hide Cancelled, Admit, Leave, Hand, Refuse, Refuses;
  }

  lemma {:induction false} RunKeepsInv(s: State, run: seq<Action>)
    requires Inv(s) && IsRun(s, run)
    ensures Inv(After(s, run))
    decreases |run|
  {
    hide Inv, Step, Enabled;
    if run != [] {
      StepKeepsInv(s, run[0]);
      RunKeepsInv(Step(s, run[0]), run[1..]);
    }
  }

  /**
    After any run: a page that is attached and open was handed, or is about to be, every frame of the turn in
    flight when it attached and of every later turn.
  */
  lemma EveryFrameReachesThePage(run: seq<Action>, c: Conn, f: Frame)
    requires IsRun(START, run) && Due(After(START, run), c, f)
    ensures var s := After(START, run);
      f in HandedTo(s.pages, c) || f in Pending(s.sockets, c) || InHand(s.worker, c, f)
  {
    StartHolds();
    RunKeepsInv(START, run);
    var s := After(START, run);
    assert Well(s, c, f);
    CountIn(HandedTo(s.pages, c), f);
    CountIn(Pending(s.sockets, c), f);
    hide Count;
  }

  /** After any run: no page was handed a frame more than twice, and twice only the one frame not yet aimed when it attached. */
  lemma AtMostOneFrameDoubled(run: seq<Action>, c: Conn, f: Frame)
    requires IsRun(START, run)
    ensures var p := After(START, run).pages;
      && Count(HandedTo(p, c), f) <= 2
      && (Count(HandedTo(p, c), f) == 2 ==> c in p.since && p.since[c].unaimed == Some(f))
  {
    StartHolds();
    RunKeepsInv(START, run);
    var s := After(START, run);
    assert Well(s, c, f);
    if c !in s.pages.since {
      assert c !in s.pages.handed;
      CountNone(f);
    }
  }

  /** A step sets a token only where it is installed, and is a page's cancel, the stop, or a close that left the session alone. */
  lemma OnlyTheseSetTokens(s: State, a: Action)
    requires Inv(s) && Enabled(s, a) && Step(s, a).tokens.raised != s.tokens.raised
    ensures s.tokens.token.Some? && Step(s, a).tokens.raised == s.tokens.raised + {s.tokens.token.value}
    ensures a.PageCancel? || a.StopToken? || (a.CancelLeft? && s.sockets.LeftAlone?)
  {
    hide BookInv, HandInv, PageInv, DeliveryInv, TokenInv, Begin, LogNext, FinishLast, EndsSilently, Deliver, Admit, Leave, Hand, Refuse, Refuses;
  }

  /** A close leaves the session alone only when the connection was the attached one. */
  lemma OnlyTheAttachedLeavesAlone(s: State, a: Action)
    requires Enabled(s, a) && Step(s, a).sockets.LeftAlone? && !s.sockets.LeftAlone?
    ensures a.Detach? && s.pages.attached == Some(Step(s, a).sockets.conn)
  {
    hide Begin, LogNext, FinishLast, EndsSilently, Deliver, Admit, Leave, Hand, Refuse, Refuses, Cancelled, Threw, NewToken, FramesForNextPage, SinceNow, At;
    if WorkerEnabled(s, a) { WorkerLeavesSockets(s, a); }
    hide WorkerStep, WorkerEnabled;
  }

  lemma WorkerLeavesSockets(s: State, a: Action)
    requires WorkerEnabled(s, a)
    ensures WorkerStep(s, a).sockets == s.sockets
  {
    hide Begin, LogNext, FinishLast, EndsSilently, Deliver, Threw, NewToken, At;
  }

  /** After any run: a token is set just when some cause set it, and the close of a refused or replaced connection never did. */
  lemma SetTokensHaveCauses(run: seq<Action>, x: Turn)
    requires IsRun(START, run)
    ensures var s := After(START, run);
      && (x in s.tokens.raised <==> exists i | 0 <= i < |s.tokens.causes| :: s.tokens.causes[i].turn == x)
      && forall i | 0 <= i < |s.tokens.causes| && s.tokens.causes[i].why.ByClose? ::
           var c := s.tokens.causes[i].why.conn; c in s.pages.status && s.pages.status[c] == Gone
  {
    StartHolds();
    RunKeepsInv(START, run);
  }

  /**
    Between turns a cancel sets no token, unless the last turn with one threw: then the token it left is
    still installed, and setting it stops no turn to come.
  */
  lemma CancelBetweenTurns(run: seq<Action>, c: Conn)
    requires IsRun(START, run) && Between(After(START, run).worker.stage) && SocketEnabled(After(START, run), PageCancel(c))
    ensures var (s, t) := (After(START, run), SocketStep(After(START, run), PageCancel(c)));
      && (s.tokens.token == None <==> s.tokens.installed == None || s.tokens.installed.value !in s.tokens.threw)
      && (s.tokens.token == None ==> t == s)
      && (s.tokens.token.Some? ==> t.tokens.raised == s.tokens.raised + {s.tokens.token.value} && s.tokens.token.value in s.tokens.threw)
  {
    StartHolds();
    RunKeepsInv(START, run);
    hide BookInv, HandInv, PageInv, DeliveryInv, PastInv, CauseInv;
  }

  /** A turn starts with its token clear: no cancel taken before reaches it. */
  lemma TurnsStartUncancelled(run: seq<Action>)
    requires IsRun(START, run) && WorkerEnabled(After(START, run), Install)
    ensures var t := WorkerStep(After(START, run), Install).tokens; t.token.Some? && t.token.value !in t.raised
  {
    StartHolds();
    RunKeepsInv(START, run);
    hide BookInv, HandInv, PageInv, DeliveryInv, CauseInv;
  }
}
