/**
  Which cancelled turns are answered (src/app/serve_runner.cpp). A cancelled turn should end without a word just
  when the page that asked for it went away; the request is read before the token goes, and a cancel that comes
  between the two is too late to be answered.
*/
module RunnerAnswers {
  import opened Wrappers
  import opened Runner
  import opened RunnerSafety
  import opened RunnerDelivery
  import opened RunnerTokens
  import opened RunnerCloses

  /** Some page's cancel set this turn's token. */
  ghost predicate AskedFor(t: Tokens, x: int) {
    exists i | 0 <= i < |t.causes| :: t.causes[i].turn == x && t.causes[i].why.ByPage?
  }

  /** Until it is read, the request says whether a page asked; then what was read says so, or the request that came too late. */
  ghost predicate AnswerInv(s: State) {
    var (t, w) := (s.tokens, s.worker);
    && (w.stage.Processing? ==> (t.cancelRequested <==> AskedFor(t, s.book.begun - 1)))
    && (w.stage.Asked? || w.stage.Cleared? ==> (w.pageAsked || t.cancelRequested <==> AskedFor(t, s.book.begun - 1)))
  }

  lemma CauseGrows(t: Tokens, why: Reason, x: int)
    requires t.token.Some?
    ensures AskedFor(Cancelled(t, why), x) <==> AskedFor(t, x) || (why.ByPage? && t.token.value == x)
  {
    var u := Cancelled(t, why);
    assert u.causes[|t.causes|] == Cause(t.token.value, why);
    if i :| 0 <= i < |t.causes| && t.causes[i].turn == x && t.causes[i].why.ByPage? { assert u.causes[i] == t.causes[i]; }
  }

  /** No page asked for a turn before it had a token. */
  lemma NoneAskedYet(s: State)
    requires TokenInv(s) && s.worker.stage.Started?
    ensures !AskedFor(s.tokens, s.book.begun - 1)
  {
    assert s.book.begun - 1 !in s.tokens.raised;
  }

  lemma StepKeepsAnswers(s: State, a: Action)
    requires TokenInv(s) && AnswerInv(s) && Enabled(s, a)
    ensures AnswerInv(Step(s, a))
  {
    hide TokenInv, Begin, FinishLast, EndsSilently, Deliver, Admit, Leave, Hand, Refuse, Refuses, FramesForNextPage, SinceNow;
    if WorkerEnabled(s, a) {
      hide Cancelled;
      if a.Install? { NoneAskedYet(s); }
      hide AskedFor;
    } else {
      hide WorkerEnabled, WorkerStep;
      if a.PageCancel? || a.CancelLeft? || a.StopToken? { CancelKeepsAnswers(s, WhyOf(s, a)); }
      hide AskedFor, Cancelled;
    }
  }

  function WhyOf(s: State, a: Action): Reason {
    if a.PageCancel? then ByPage(a.conn) else if a.CancelLeft? && s.sockets.LeftAlone? then ByClose(s.sockets.conn) else ByStop
  }

  lemma CancelKeepsAnswers(s: State, why: Reason)
    requires TokenInv(s) && AnswerInv(s)
    ensures AnswerInv(s.(tokens := Cancelled(s.tokens, why)))
  {
    if s.tokens.token.Some? && s.book.begun > 0 { CauseGrows(s.tokens, why, s.book.begun - 1); }
    hide AskedFor, CauseInv, PastInv, LeftInv;
  }

  lemma {:induction false} RunKeepsAnswers(s: State, run: seq<Action>)
    requires Inv(s) && AnswerInv(s) && IsRun(s, run)
    ensures AnswerInv(After(s, run))
    decreases |run|
  {
    if run != [] {
      StepKeepsInv(s, run[0]);
      hide TokenInv, AnswerInv, Step, Enabled;
      assert TokenInv(s);
      StepKeepsAnswers(s, run[0]);
      RunKeepsAnswers(Step(s, run[0]), run[1..]);
    }
  }

  // ---------------------------------------------------------------- which turns are answered

  /** Of the turn whose request was read as `asked` when `begun` turns had begun, or past it. */
  predicate ReadAs(s: State, begun: nat, asked: bool) {
    || s.book.begun > begun
    || (&& s.book.begun == begun && !s.worker.stage.Recorded? && !s.worker.stage.Started? && !s.worker.stage.Processing?
        && (s.worker.stage.Asked? || s.worker.stage.Cleared? ==> s.worker.pageAsked == asked))
  }

  lemma StepKeepsRead(s: State, a: Action, begun: nat, asked: bool)
    requires ReadAs(s, begun, asked) && Enabled(s, a)
    ensures ReadAs(Step(s, a), begun, asked)
  {
    hide EndsSilently, Deliver, Admit, Leave, Hand, Refuse, Refuses, FramesForNextPage, SinceNow, Cancelled, NewToken, Threw;
    if !WorkerEnabled(s, a) { SocketKeepsBook(s, a); }
    hide SocketStep, SocketEnabled;
  }

  lemma {:induction false} RunKeepsRead(s: State, run: seq<Action>, begun: nat, asked: bool)
    requires ReadAs(s, begun, asked) && IsRun(s, run)
    ensures ReadAs(After(s, run), begun, asked)
    decreases |run|
  {
    hide ReadAs, Step, Enabled;
    if run != [] {
      StepKeepsRead(s, run[0], begun, asked);
      RunKeepsRead(Step(s, run[0]), run[1..], begun, asked);
    }
  }

  lemma {:induction false} RunJoins(s: State, a: seq<Action>, b: seq<Action>)
    requires IsRun(s, a + b)
    ensures IsRun(s, a) && IsRun(After(s, a), b) && After(s, a + b) == After(After(s, a), b)
    decreases |a|
  {
    hide Step, Enabled;
    if a == [] {
      assert a + b == b;
    } else {
      assert (a + b)[1..] == a[1..] + b;
      RunJoins(Step(s, a[0]), a[1..], b);
    }
  }

  /** The request is read as what it is: whether a page's cancel has set this turn's token. */
  lemma RequestIsRead(before: seq<Action>)
    requires IsRun(START, before) && WorkerEnabled(After(START, before), ReadAsked)
    ensures var s := After(START, before);
      WorkerStep(s, ReadAsked).worker.pageAsked <==> AskedFor(s.tokens, s.book.begun - 1)
  {
    StartHolds();
    RunKeepsAnswers(START, before);
    hide AskedFor;
  }

  /**
    After any run, a cancelled turn that comes to its end is answered exactly when a page asked for the cancel
    before the request was read, and the page whose turn it is is still there.
  */
  lemma CancelledIsAnsweredIff(before: seq<Action>, mid: seq<Action>)
    requires IsRun(START, before + ([ReadAsked] + mid)) && IsRun(START, before) && WorkerEnabled(After(START, before), ReadAsked)
    requires var s := After(START, before + ([ReadAsked] + mid));
      s.worker.stage.Cleared? && s.book.begun == After(START, before).book.begun && s.book.begun - 1 in s.tokens.raised
    ensures var (u, s) := (After(START, before), After(START, before + ([ReadAsked] + mid)));
      && (WorkerEnabled(s, SpeakOn) <==>
           AskedFor(u.tokens, s.book.begun - 1) && s.worker.job.conn.Some? && s.worker.job.conn.value in s.pages.onPage)
      && (WorkerEnabled(s, EndSilent) <==> !WorkerEnabled(s, SpeakOn))
  {
    hide IsRun, AskedFor, WorkerStep, Cancelled;
    RequestIsRead(before);
    ReadCarries(before, mid);
  }

  lemma ReadCarries(before: seq<Action>, mid: seq<Action>)
    requires IsRun(START, before + ([ReadAsked] + mid)) && IsRun(START, before) && WorkerEnabled(After(START, before), ReadAsked)
    ensures var u := After(START, before);
      ReadAs(After(START, before + ([ReadAsked] + mid)), u.book.begun, WorkerStep(u, ReadAsked).worker.pageAsked)
  {
    RunJoins(START, before, [ReadAsked] + mid);
    var u := After(START, before);
    var read := WorkerStep(u, ReadAsked);
    assert ([ReadAsked] + mid)[1..] == mid;
    RunKeepsRead(read, mid, u.book.begun, read.worker.pageAsked);
  }

  /** What the request alone does not say is said by the one that came too late. */
  lemma AskedEarlyOrLate(run: seq<Action>)
    requires IsRun(START, run) && After(START, run).worker.stage.Cleared?
    ensures var s := After(START, run);
      AskedFor(s.tokens, s.book.begun - 1) <==> s.worker.pageAsked || s.tokens.cancelRequested
  {
    StartHolds();
    RunKeepsAnswers(START, run);
    hide AskedFor;
  }

  /** A page that is still there can cancel its own turn too late to be told of it. */
  lemma LateCancelIsSilent() returns (run: seq<Action>)
    ensures IsRun(START, run) && var s := After(START, run);
      && WorkerEnabled(s, EndSilent) && s.worker.job == PAGES_TURN && s.pages.attached == Some(PAGE) && PAGE in s.pages.onPage
      && s.tokens.causes == [Cause(0, ByPage(PAGE))] && s.book.begun == 1
  {
    run := ReachRunning();
    RunOn(START, run, ReadAsked);
    run := run + [ReadAsked];
    RunOn(START, run, PageCancel(PAGE));
    run := run + [PageCancel(PAGE)];
    RunOn(START, run, ClearToken);
    run := run + [ClearToken];
  }
}
