/**
  What holds of the session runner in every reachable state, whatever the interleaving: delivery of frames,
  and who sets which token (src/app/serve_runner.cpp).
*/
module RunnerSafety {
  import opened Wrappers
  import opened Runner

  // ---------------------------------------------------------------- frames and records

  /** The frames of a turn, in the order they were logged. */
  function FramesOf(log: seq<Turn>, t: Turn): (fs: seq<Frame>)
    ensures forall k | k in fs :: k < |log| && log[k] == t
    ensures forall k | 0 <= k < |log| && log[k] == t :: k in fs
  {
    if log == [] then []
    else
      var n := |log| - 1;
      FramesOf(log[..n], t) + (if log[n] == t then [n] else [])
  }

  lemma FramesOfNext(log: seq<Turn>, turn: Turn, t: Turn)
    ensures FramesOf(log + [turn], t) == FramesOf(log, t) + (if turn == t then [|log|] else [])
  {
    assert (log + [turn])[..|log|] == log;
  }

  lemma {:induction false} NoFrames(log: seq<Turn>, t: Turn)
    requires forall k | 0 <= k < |log| :: log[k] != t
    ensures FramesOf(log, t) == []
  {
    if log != [] { NoFrames(log[..|log| - 1], t); }
  }

  function Count(fs: seq<Frame>, k: Frame): nat { multiset(fs)[k] }

  lemma {:induction false} FramesOfOnce(log: seq<Turn>, t: Turn, k: Frame)
    ensures Count(FramesOf(log, t), k) <= 1
  {
    if log != [] {
      var n := |log| - 1;
      FramesOfOnce(log[..n], t, k);
      if k == n { assert k !in FramesOf(log[..n], t); }
    }
  }

  // ---------------------------------------------------------------- the book

  predicate KeptIs(b: Book, i: nat)
    requires i < |b.turns|
  {
    b.turns[i].turn == b.begun - |b.turns| + i && b.turns[i].frames == FramesOf(b.log, b.turns[i].turn)
  }

  /** The records kept are the last turns, eight at most, each with just its frames. */
  ghost predicate BookInv(b: Book) {
    && |b.turns| == (if b.begun < TURNS_KEPT then b.begun else TURNS_KEPT)
    && (forall i | 0 <= i < |b.turns| :: KeptIs(b, i))
    && (forall k | 0 <= k < |b.log| :: b.log[k] < b.begun)
  }

  lemma BeginKeepsBook(b: Book)
    requires BookInv(b)
    ensures BookInv(Begin(b))
  {
    var after := Begin(b);
    NoFrames(b.log, b.begun);
    forall i | 0 <= i < |after.turns| ensures KeptIs(after, i) {
      var k := i + |b.turns| + 1 - |after.turns|;
      if k < |b.turns| { assert KeptIs(b, k); }
    }
  }

  lemma LogKeepsBook(b: Book)
    requires BookInv(b) && b.begun > 0
    ensures BookInv(LogNext(b))
  {
    var after := LogNext(b);
    forall i | 0 <= i < |after.turns| ensures KeptIs(after, i) {
      assert KeptIs(b, i);
      FramesOfNext(b.log, b.begun - 1, b.turns[i].turn);
    }
  }

  lemma FinishKeepsBook(b: Book)
    requires BookInv(b)
    ensures BookInv(FinishLast(b))
  {
    var after := FinishLast(b);
    forall i | 0 <= i < |after.turns| ensures KeptIs(after, i) { assert KeptIs(b, i); }
  }

  /** What is on its way is the last frame logged, of the turn now running. */
  predicate HandInv(b: Book, w: Worker) {
    && (!w.stage.Idle? && !w.stage.Taken? ==> b.begun > 0)
    && (!w.sending.Nothing? ==> Speaks(w.stage) && w.sending.frame + 1 == |b.log| && b.log[w.sending.frame] == b.begun - 1)
  }

  lemma WorkerKeepsBook(s: State, a: Action)
    requires BookInv(s.book) && HandInv(s.book, s.worker) && WorkerEnabled(s, a)
    ensures BookInv(WorkerStep(s, a).book) && HandInv(WorkerStep(s, a).book, WorkerStep(s, a).worker)
  {
    hide BookInv, Begin, LogNext, FinishLast, EndsSilently, Deliver, Threw, NewToken;
    match a
    case PushRecord => BeginKeepsBook(s.book); HandAfter(s.book);
    case LogFrame => LogKeepsBook(s.book); HandAfter(s.book);
    case FinishRecord => FinishKeepsBook(s.book); HandAfter(s.book);
    case _ =>
  }

  lemma HandAfter(b: Book)
    ensures Begin(b).begun == b.begun + 1 && Begin(b).log == b.log
    ensures b.begun > 0 ==> LogNext(b).begun == b.begun && LogNext(b).log == b.log + [b.begun - 1]
    ensures FinishLast(b).begun == b.begun && FinishLast(b).log == b.log
  {}

  // ---------------------------------------------------------------- pages

  ghost predicate SlotInv(p: Pages) {
    && (forall c :: Has(p.status, c, Attached) <==> p.attached == Some(c))
    && (forall c | c in p.onPage :: p.attached == Some(c))
    && p.closed <= p.status.Keys
  }

  predicate Has(m: map<Conn, Status>, c: Conn, v: Status) { c in m && m[c] == v }

  /** Just those that attached were handed anything. */
  ghost predicate AdmittedInv(p: Pages) {
    && p.handed.Keys == p.since.Keys
    && forall c :: c in p.since <==> c in p.status && p.status[c] != Refused
  }

  ghost predicate SocketInv(p: Pages, k: Sockets) {
    && (k.Attaching? ==> p.attached == Some(k.conn) && k.conn !in p.closed)
    && (k.Closed? || k.OffPage? || k.LeftAlone? ==> k.conn in p.closed)
    && (k.OffPage? ==> k.conn !in p.onPage)
    && (k.LeftAlone? ==> Has(p.status, k.conn, Gone))
    && (p.attached.Some? && p.attached.value in p.closed ==> k == Closed(p.attached.value) || k == OffPage(p.attached.value))
  }

  predicate AimInv(p: Pages, w: Worker) { w.sending.Aimed? && w.sending.to.Some? ==> w.sending.to.value in p.since }

  ghost predicate PageInv(s: State) {
    SlotInv(s.pages) && AdmittedInv(s.pages) && SocketInv(s.pages, s.sockets) && AimInv(s.pages, s.worker)
  }

  lemma AttachedIsAdmitted(p: Pages)
    requires SlotInv(p) && AdmittedInv(p) && p.attached.Some?
    ensures p.attached.value in p.since && Has(p.status, p.attached.value, Attached)
  {
    assert Has(p.status, p.attached.value, Attached);
  }

  lemma DeliverKeepsPages(p: Pages, to: Option<Conn>, f: Frame, k: Sockets)
    requires SlotInv(p) && AdmittedInv(p) && SocketInv(p, k) && (to.Some? ==> to.value in p.since)
    ensures SlotInv(Deliver(p, to, f)) && AdmittedInv(Deliver(p, to, f)) && SocketInv(Deliver(p, to, f), k)
  {}

  lemma WorkerKeepsPages(s: State, a: Action)
    requires PageInv(s) && WorkerEnabled(s, a)
    ensures PageInv(WorkerStep(s, a))
  {
    hide SlotInv, AdmittedInv, SocketInv, Begin, LogNext, FinishLast, EndsSilently, Threw, NewToken, Deliver;
    match a
    case Aim => if s.pages.attached.Some? { AttachedIsAdmitted(s.pages); }
    case SendFrame => DeliverKeepsPages(s.pages, s.worker.sending.to, s.worker.sending.frame, s.sockets);
    case _ =>
  }

  lemma RefuseKeepsPages(p: Pages, c: Conn)
    requires SlotInv(p) && AdmittedInv(p) && SocketInv(p, Free) && c !in p.status
    ensures SlotInv(Refuse(p, c)) && AdmittedInv(Refuse(p, c)) && SocketInv(Refuse(p, c), Free) && Refuse(p, c).since == p.since
  {
    var q := Refuse(p, c);
    forall d ensures Has(q.status, d, Attached) <==> q.attached == Some(d) { assert Has(p.status, d, Attached) <==> p.attached == Some(d); }
  }

  lemma AdmitKeepsPages(p: Pages, c: Conn, since: Since, pending: seq<Frame>)
    requires SlotInv(p) && AdmittedInv(p) && SocketInv(p, Free) && c !in p.status
    ensures var q := Admit(p, c, since); SlotInv(q) && AdmittedInv(q) && SocketInv(q, Attaching(c, pending)) && p.since.Keys <= q.since.Keys
  {
    var q := Admit(p, c, since);
    if p.attached.Some? { AttachedIsAdmitted(p); }
    forall d ensures Has(q.status, d, Attached) <==> q.attached == Some(d) { assert Has(p.status, d, Attached) <==> p.attached == Some(d); }
  }

  lemma LeaveKeepsPages(p: Pages, c: Conn, mine: Option<Turn>)
    requires SlotInv(p) && AdmittedInv(p) && SocketInv(p, OffPage(c)) && p.attached == Some(c)
    ensures SlotInv(Leave(p, c)) && AdmittedInv(Leave(p, c)) && SocketInv(Leave(p, c), LeftAlone(c, mine)) && Leave(p, c).since == p.since
  {
    var q := Leave(p, c);
    AttachedIsAdmitted(p);
    forall d ensures Has(q.status, d, Attached) <==> q.attached == Some(d) { assert Has(p.status, d, Attached) <==> p.attached == Some(d); }
  }

  lemma HandKeepsPages(p: Pages, c: Conn, pending: seq<Frame>)
    requires SlotInv(p) && AdmittedInv(p) && SocketInv(p, Attaching(c, pending)) && pending != []
    ensures var q := Hand(p, c, pending[0]); SlotInv(q) && AdmittedInv(q) && SocketInv(q, Attaching(c, pending[1..])) && q.since == p.since
  {
    AttachedIsAdmitted(p);
  }

  lemma FlagsKeepPages(p: Pages, c: Conn)
    requires SlotInv(p) && AdmittedInv(p)
    ensures SocketInv(p, Attaching(c, [])) ==>
      SlotInv(p.(onPage := p.onPage + {c})) && AdmittedInv(p.(onPage := p.onPage + {c})) && SocketInv(p.(onPage := p.onPage + {c}), Free)
    ensures SocketInv(p, Free) && c in p.status ==>
      SlotInv(p.(closed := p.closed + {c})) && AdmittedInv(p.(closed := p.closed + {c})) && SocketInv(p.(closed := p.closed + {c}), Closed(c))
    ensures SocketInv(p, Closed(c)) ==>
      SlotInv(p.(onPage := p.onPage - {c})) && AdmittedInv(p.(onPage := p.onPage - {c})) && SocketInv(p.(onPage := p.onPage - {c}), OffPage(c))
  {}

  lemma SocketsMove(p: Pages, k: Sockets, l: Sockets)
    requires SocketInv(p, k)
    requires k == l || (k.OffPage? && p.attached != Some(k.conn) && l.Free?) || (k.LeftAlone? && l.Free?)
      || (k.Free? && l.Joined?) || (k.Joined? && l.StopAsked?) || (k.StopAsked? && l.Over?)
    ensures SocketInv(p, l)
  {}

  lemma SocketKeepsPages(s: State, a: Action)
    requires PageInv(s) && SocketEnabled(s, a)
    ensures PageInv(SocketStep(s, a))
  {
    var p := s.pages;
    hide SlotInv, AdmittedInv, SocketInv, Cancelled, Admit, Leave, Hand, Refuse, Refuses;
    match a
    case Attach(c) =>
      if Refuses(p, c) { RefuseKeepsPages(p, c); }
      else { AdmitKeepsPages(p, c, SinceNow(s), FramesForNextPage(s.book.turns)); }
    case HandPending => HandKeepsPages(p, s.sockets.conn, s.sockets.pending);
    case EnterPage =>
      assert s.sockets == Attaching(s.sockets.conn, []);
      FlagsKeepPages(p, s.sockets.conn);
    case Close(c) => FlagsKeepPages(p, c);
    case LeavePage => FlagsKeepPages(p, s.sockets.conn);
    case Detach =>
      if p.attached == Some(s.sockets.conn) { LeaveKeepsPages(p, s.sockets.conn, s.tokens.token); }
      else { SocketsMove(p, s.sockets, Free); }
    case CancelLeft => SocketsMove(p, s.sockets, Free);
    case Join => SocketsMove(p, s.sockets, Joined);
    case StopJobs => SocketsMove(p, s.sockets, StopAsked);
    case StopToken => SocketsMove(p, s.sockets, Over);
    case _ =>
  }

  /** At most one connection counts as the page, and it is the attached one. */
  lemma OnePage(s: State, c: Conn, d: Conn)
    requires PageInv(s) && c in s.pages.onPage && d in s.pages.onPage
    ensures c == d && s.pages.attached == Some(c)
  {}

  /** A live page keeps the session from every other tab, and gives it to a newer socket of its own. */
  lemma LivePageKept(s: State, c: Conn, d: Conn)
    requires PageInv(s) && SocketEnabled(s, Attach(d)) && s.pages.attached == Some(c) && Live(s.pages, c)
    ensures SocketStep(s, Attach(d)).pages.attached == (if d.client != [] && d.client == c.client then Some(d) else Some(c))
  {
    AttachedIsAdmitted(s.pages);
  }
}
