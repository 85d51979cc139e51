/**
  Which frames a page is handed (src/app/serve_runner.cpp): each at least once while it stays attached, none
  more than twice, and at most one twice for each attach.
*/
module RunnerDelivery {
  import opened Wrappers
  import opened Runner
  import opened RunnerSafety

  function Pending(k: Sockets, c: Conn): seq<Frame> { if k.Attaching? && k.conn == c then k.pending else [] }

  /** The worker holds the frame for this page: aimed at it, or logged and not yet aimed at any. */
  predicate InHand(w: Worker, c: Conn, f: Frame) { w.sending == Logged(f) || w.sending == Aimed(f, Some(c)) }

  /** How often the page was handed the frame, or may still be. */
  function Times(s: State, c: Conn, f: Frame): nat {
    Count(HandedTo(s.pages, c), f) + Count(Pending(s.sockets, c), f) + if InHand(s.worker, c, f) then 1 else 0
  }

  /** The page is attached and open, and the frame is of the turn in flight when it attached, or of a later one. */
  predicate Due(s: State, c: Conn, f: Frame) {
    && s.pages.attached == Some(c) && c !in s.pages.closed && c in s.pages.since
    && f < |s.book.log| && s.book.log[f] >= s.pages.since[c].turn
  }

  function Allowed(s: State, c: Conn, f: Frame): nat
    requires c in s.pages.since
  {
    if f >= |s.book.log| then 0 else if s.pages.since[c].unaimed == Some(f) then 2 else 1
  }

  predicate Well(s: State, c: Conn, f: Frame) {
    && (Due(s, c, f) ==> Times(s, c, f) >= 1)
    && (c in s.pages.since ==> Times(s, c, f) <= Allowed(s, c, f))
  }

  ghost predicate DeliveryInv(s: State) { forall c, f :: Well(s, c, f) }

  // ---------------------------------------------------------------- the worker

  lemma CountSnoc(fs: seq<Frame>, g: Frame, f: Frame)
    ensures Count(fs + [g], f) == Count(fs, f) + if f == g then 1 else 0
  {}

  lemma LogIsWell(s: State, t: State, c: Conn, f: Frame)
    requires Well(s, c, f) && WorkerEnabled(s, LogFrame) && t == WorkerStep(s, LogFrame)
    ensures Well(t, c, f)
  {
    HandAfter(s.book);
    hide LogNext, Count;
  }

  lemma AimIsWell(s: State, t: State, c: Conn, f: Frame)
    requires Well(s, c, f) && WorkerEnabled(s, Aim) && t == WorkerStep(s, Aim)
    ensures Well(t, c, f)
  {
    hide Count;
  }

  lemma SendIsWell(s: State, t: State, c: Conn, f: Frame)
    requires Well(s, c, f) && WorkerEnabled(s, SendFrame) && t == WorkerStep(s, SendFrame)
    ensures Well(t, c, f)
  {
    var (g, to) := (s.worker.sending.frame, s.worker.sending.to);
    if to == Some(c) { CountSnoc(HandedTo(s.pages, c), g, f); }
    hide Count;
  }

  /** Nothing a page is handed depends on the rest of the state. */
  predicate SameWay(s: State, t: State) {
    t.pages == s.pages && t.sockets == s.sockets && t.book.log == s.book.log && t.worker.sending == s.worker.sending
  }

  lemma SameIsWell(s: State, t: State, c: Conn, f: Frame)
    requires Well(s, c, f) && SameWay(s, t)
    ensures Well(t, c, f)
  {
    hide Count, HandedTo;
  }

  lemma OtherWorkerSteps(s: State, a: Action)
    requires WorkerEnabled(s, a) && !a.LogFrame? && !a.Aim? && !a.SendFrame?
    ensures SameWay(s, WorkerStep(s, a))
  {
    HandAfter(s.book);
    hide LogNext, Begin, FinishLast, EndsSilently, Threw, NewToken, Deliver;
  }

  lemma WorkerIsWell(s: State, a: Action, c: Conn, f: Frame)
    requires Well(s, c, f) && WorkerEnabled(s, a)
    ensures Well(WorkerStep(s, a), c, f)
  {
    var t := WorkerStep(s, a);
    hide Well, WorkerStep, WorkerEnabled;
    if a.LogFrame? { LogIsWell(s, t, c, f); }
    else if a.Aim? { AimIsWell(s, t, c, f); }
    else if a.SendFrame? { SendIsWell(s, t, c, f); }
    else {
      OtherWorkerSteps(s, a);
      SameIsWell(s, t, c, f);
    }
  }

  // ---------------------------------------------------------------- the sockets

  /** The snapshot has each frame of the turn in flight, and no frame twice. */
  lemma Snapshot(b: Book, f: Frame)
    requires BookInv(b)
    ensures Count(FramesForNextPage(b.turns), f) <= (if f < |b.log| then 1 else 0)
    ensures f < |b.log| && b.log[f] >= (if b.begun == 0 then 0 else b.begun - 1) ==> Count(FramesForNextPage(b.turns), f) == 1
  {
    var n := |b.turns|;
    if n > 0 {
      assert KeptIs(b, n - 1);
      FramesOfOnce(b.log, b.begun - 1, f);
      if n >= 2 {
        assert KeptIs(b, n - 2);
        FramesOfOnce(b.log, b.begun - 2, f);
        CountBoth(b.turns[n - 2].frames, b.turns[n - 1].frames, f);
      } else {
        CountBoth([], b.turns[n - 1].frames, f);
      }
      CountIn(b.turns[n - 1].frames, f);
      if n >= 2 { CountIn(b.turns[n - 2].frames, f); }
    }
  }

  lemma CountBoth(a: seq<Frame>, b: seq<Frame>, f: Frame)
    ensures Count(a + b, f) == Count(a, f) + Count(b, f)
  {}

  lemma CountIn(fs: seq<Frame>, f: Frame)
    ensures f in fs <==> Count(fs, f) >= 1
  {}

  lemma AdmitIsWell(s: State, t: State, d: Conn, c: Conn, f: Frame)
    requires BookInv(s.book) && HandInv(s.book, s.worker) && PageInv(s) && Well(s, c, f)
    requires SocketEnabled(s, Attach(d)) && !Refuses(s.pages, d) && t == SocketStep(s, Attach(d))
    ensures Well(t, c, f)
  {
    Snapshot(s.book, f);
    hide Count, FramesForNextPage, BookInv, SlotInv, SocketInv, Refuses, LogNext;
    if c == d {
      CountNone(f);
      assert c !in s.pages.since;
    }
  }

  lemma CountNone(f: Frame)
    ensures Count([], f) == 0
  {}

  lemma HandIsWell(s: State, t: State, c: Conn, f: Frame)
    requires PageInv(s) && Well(s, c, f) && SocketEnabled(s, HandPending) && t == SocketStep(s, HandPending)
    ensures Well(t, c, f)
  {
    AttachedOfSocket(s);
    hide SlotInv, SocketInv, AdmittedInv, AimInv, Count;
    if c == s.sockets.conn { Moved(HandedTo(s.pages, c), s.sockets.pending, f); }
  }

  lemma Moved(handed: seq<Frame>, pending: seq<Frame>, f: Frame)
    requires pending != []
    ensures Count(handed + [pending[0]], f) + Count(pending[1..], f) == Count(handed, f) + Count(pending, f)
  {
    CountSnoc(handed, pending[0], f);
    CountBoth([pending[0]], pending[1..], f);
    assert [pending[0]] + pending[1..] == pending;
    CountSnoc([], pending[0], f);
    CountNone(f);
    assert [] + [pending[0]] == [pending[0]];
  }

  lemma AttachedOfSocket(s: State)
    requires PageInv(s) && s.sockets.Attaching?
    ensures s.pages.attached == Some(s.sockets.conn) && s.sockets.conn in s.pages.since
  {
    AttachedIsAdmitted(s.pages);
  }

  /** The page's way is shortened or left as it is: nothing pending is lost. */
  predicate NoMoreDue(s: State, t: State) {
    && t.book == s.book && t.worker == s.worker && t.pages.since == s.pages.since && t.pages.handed == s.pages.handed
    && (t.pages.attached == s.pages.attached || t.pages.attached == None) && s.pages.closed <= t.pages.closed
    && (t.sockets == s.sockets || ((s.sockets.Attaching? ==> s.sockets.pending == []) && !t.sockets.Attaching?))
  }

  lemma NoMoreDueIsWell(s: State, t: State, c: Conn, f: Frame)
    requires Well(s, c, f) && NoMoreDue(s, t)
    ensures Well(t, c, f)
  {
    CountNone(f);
    hide Count;
  }

  lemma OtherSocketSteps(s: State, a: Action)
    requires SocketEnabled(s, a) && !a.HandPending? && (a.Attach? ==> Refuses(s.pages, a.conn))
    ensures NoMoreDue(s, SocketStep(s, a))
  {
    hide Cancelled, Admit, Refuses;
  }

  lemma SocketIsWell(s: State, a: Action, c: Conn, f: Frame)
    requires BookInv(s.book) && HandInv(s.book, s.worker) && PageInv(s) && Well(s, c, f) && SocketEnabled(s, a)
    ensures Well(SocketStep(s, a), c, f)
  {
    var t := SocketStep(s, a);
    hide Well, SocketStep, SocketEnabled, BookInv, HandInv, PageInv;
    if a.Attach? && !Refuses(s.pages, a.conn) { AdmitIsWell(s, t, a.conn, c, f); }
    else if a.HandPending? { HandIsWell(s, t, c, f); }
    else {
      OtherSocketSteps(s, a);
      NoMoreDueIsWell(s, t, c, f);
    }
  }
}
