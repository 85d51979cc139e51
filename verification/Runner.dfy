/**
  The session runner as its two threads' atomic steps (src/app/serve_runner.cpp, src/app/serve_websocket.cpp):
  one step for each stretch under a lock, or for each read or write of an atomic flag. All sockets share one
  thread, and `Stop` is called after it has ended (src/app/serve.cpp), so there are two program counters: the
  worker's and the sockets'. A token is named by the turn it was made for, a frame by its place in the order
  frames were logged.
*/
module Runner {
  import opened Wrappers
  import opened Utf8

  type Frame = nat
  type Turn = nat

  /** A connection and the name its tab gave. */
  datatype Conn = Conn(number: nat, client: Text)

  /** A turn asked by a page has its connection, one asked by a peer the peer's name. */
  datatype Job = Job(conn: Option<Conn>, peerOrigin: Text)

  datatype Record = Record(turn: Turn, finished: bool, frames: seq<Frame>)

  const TURNS_KEPT := 8

  // ---------------------------------------------------------------- state

  datatype Queue = Queue(jobs: seq<Job>, stopping: bool, running: bool)

  /** The records kept; how many turns were begun; the turn of each frame ever logged. */
  datatype Book = Book(turns: seq<Record>, begun: nat, log: seq<Turn>)

  datatype Status = Refused | Attached | Replaced | Gone

  /** What was so when a page attached: the turn in flight, and the frame logged but not yet aimed. */
  datatype Since = Since(turn: Turn, unaimed: Option<Frame>)

  /** The attach slot and the connections' flags; what became of each connection, and what it was handed. */
  datatype Pages = Pages(
    attached: Option<Conn>, closed: set<Conn>, onPage: set<Conn>,
    status: map<Conn, Status>, handed: map<Conn, seq<Frame>>, since: map<Conn, Since>)

  datatype Reason = ByPage(conn: Conn) | ByClose(conn: Conn) | ByStop

  datatype Cause = Cause(turn: Turn, why: Reason)

  /** The token installed and those that are set; who set them, the last installed, and the turns that threw with theirs. */
  datatype Tokens = Tokens(
    token: Option<Turn>, cancelRequested: bool, raised: set<Turn>,
    causes: seq<Cause>, installed: Option<Turn>, threw: set<Turn>)

  datatype Stage =
    | Idle
    | Taken          // a job, no record yet
    | Recorded
    | Started        // `running_` set
    | Processing     // its token installed
    | Asked          // the page's request read and cleared
    | Cleared        // the token cleared
    | Closing        // not cancelled, or cancelled by a page still there
    | Failing        // something was thrown
    | Ending         // all said; the record still to be finished

  /** A frame on its way: logged, then with the page it goes to. */
  datatype Sending = Nothing | Logged(frame: Frame) | Aimed(frame: Frame, to: Option<Conn>)

  datatype Worker = Worker(stage: Stage, job: Job, pageAsked: bool, sending: Sending)

  datatype Sockets =
    | Free
    | Attaching(conn: Conn, pending: seq<Frame>)
    | Closed(conn: Conn)
    | OffPage(conn: Conn)
    | LeftAlone(conn: Conn, mine: Option<Turn>)  // with the token that was installed when it left
    | Joined
    | StopAsked
    | Over

  datatype State = State(queue: Queue, book: Book, pages: Pages, tokens: Tokens, worker: Worker, sockets: Sockets)

  const START := State(
    Queue([], false, false), Book([], 0, []), Pages(None, {}, {}, map[], map[], map[]),
    Tokens(None, false, {}, [], None, {}), Worker(Idle, Job(None, []), false, Nothing), Free)

  datatype Action =
    | Take | PushRecord | Skip | Run | Install | LogFrame | Aim | SendFrame | ReadAsked | ClearToken | EndSilent | SpeakOn
    | EndTurn | Throw | FinishRecord
    | Submit(conn: Conn) | SubmitFromPeer(peer: Text) | PageCancel(conn: Conn)
    | Attach(conn: Conn) | HandPending | EnterPage
    | Close(conn: Conn) | LeavePage | Detach | CancelLeft
    | Join | StopJobs | StopToken

  // ---------------------------------------------------------------- the worker's steps

  function Trimmed(turns: seq<Record>): seq<Record> {
    if |turns| > TURNS_KEPT then turns[|turns| - TURNS_KEPT..] else turns
  }

  /** A new record; the oldest beyond those kept is dropped. */
  function Begin(b: Book): Book { b.(turns := Trimmed(b.turns + [Record(b.begun, false, [])]), begun := b.begun + 1) }

  /** The record written to is the newest. */
  function LogNext(b: Book): Book
    requires b.begun > 0
  {
    var (last, f) := (|b.turns| - 1, |b.log|);
    b.(turns := if b.turns == [] then [] else b.turns[last := b.turns[last].(frames := b.turns[last].frames + [f])],
       log := b.log + [b.begun - 1])
  }

  function FinishLast(b: Book): Book {
    if b.turns == [] then b else b.(turns := b.turns[|b.turns| - 1 := b.turns[|b.turns| - 1].(finished := true)])
  }

  function HandedTo(p: Pages, c: Conn): seq<Frame> { if c in p.handed then p.handed[c] else [] }

  function Hand(p: Pages, c: Conn, f: Frame): Pages { p.(handed := p.handed[c := HandedTo(p, c) + [f]]) }

  /** A page that has closed is handed nothing. */
  function Deliver(p: Pages, to: Option<Conn>, f: Frame): Pages {
    if to.Some? && to.value !in p.closed then Hand(p, to.value, f) else p
  }

  function NewToken(t: Tokens, turn: Turn): Tokens {
    t.(token := Some(turn), cancelRequested := false, installed := Some(turn))
  }

  predicate Speaks(stage: Stage) { stage.Processing? || stage.Closing? || stage.Failing? }

  /** The turn was cancelled, and not by a page still there to be told so. */
  predicate EndsSilently(s: State) {
    && s.book.begun > 0 && s.book.begun - 1 in s.tokens.raised
    && !(s.worker.pageAsked && s.worker.job.conn.Some? && s.worker.job.conn.value in s.pages.onPage)
  }

  predicate Nobodys(job: Job) { job.conn == None && job.peerOrigin == [] }

  predicate WorkerEnabled(s: State, a: Action) {
    var w := s.worker;
    match a
    case Take => w.stage.Idle? && s.queue.jobs != []
    case PushRecord => w.stage.Taken?
    case Skip => w.stage.Recorded? && Nobodys(w.job)
    case Run => w.stage.Recorded? && !Nobodys(w.job)
    case Install => w.stage.Started? && s.book.begun > 0
    case LogFrame => Speaks(w.stage) && w.sending.Nothing? && s.book.begun > 0
    case Aim => w.sending.Logged?
    case SendFrame => w.sending.Aimed?
    case ReadAsked => w.stage.Processing? && w.sending.Nothing?
    case ClearToken => w.stage.Asked?
    case EndSilent => w.stage.Cleared? && EndsSilently(s)
    case SpeakOn => w.stage.Cleared? && !EndsSilently(s)
    case EndTurn => (w.stage.Closing? || w.stage.Failing?) && w.sending.Nothing?
    case Throw => (w.stage.Processing? || w.stage.Closing?) && w.sending.Nothing?
    case FinishRecord => w.stage.Ending?
    case _ => false
  }

  function At(w: Worker, stage: Stage): Worker { w.(stage := stage) }

  function Threw(t: Tokens, stage: Stage): Tokens {
    if stage.Processing? && t.token.Some? then t.(threw := t.threw + {t.token.value}) else t
  }

  function WorkerStep(s: State, a: Action): State
    requires WorkerEnabled(s, a)
  {
    var w := s.worker;
    match a
    case Take => s.(queue := s.queue.(jobs := s.queue.jobs[1..]), worker := Worker(Taken, s.queue.jobs[0], false, w.sending))
    case PushRecord => s.(book := Begin(s.book), worker := At(w, Recorded))
    case Skip => s.(queue := s.queue.(running := false), worker := At(w, Idle))
    case Run => s.(queue := s.queue.(running := true), worker := At(w, Started))
    case Install => s.(tokens := NewToken(s.tokens, s.book.begun - 1), worker := At(w, Processing))
    case LogFrame => s.(book := LogNext(s.book), worker := w.(sending := Logged(|s.book.log|)))
    case Aim => s.(worker := w.(sending := Aimed(w.sending.frame, s.pages.attached)))
    case SendFrame => s.(pages := Deliver(s.pages, w.sending.to, w.sending.frame), worker := w.(sending := Nothing))
    case ReadAsked =>
      s.(tokens := s.tokens.(cancelRequested := false), worker := w.(stage := Asked, pageAsked := s.tokens.cancelRequested))
    case ClearToken => s.(tokens := s.tokens.(token := None), worker := At(w, Cleared))
    case EndSilent => s.(queue := s.queue.(running := false), worker := At(w, Ending))
    case SpeakOn => s.(worker := At(w, Closing))
    case EndTurn => s.(queue := s.queue.(running := false), worker := At(w, Ending))
    case Throw => s.(queue := s.queue.(running := false), tokens := Threw(s.tokens, w.stage), worker := At(w, Failing))
    case FinishRecord => s.(book := FinishLast(s.book), worker := At(w, Idle))
  }

  // ---------------------------------------------------------------- the sockets' steps

  /** The frames of the turn in flight, or the last that ran, and of the one before it. */
  function FramesForNextPage(turns: seq<Record>): seq<Frame> {
    if turns == [] then []
    else (if |turns| >= 2 then turns[|turns| - 2].frames else []) + turns[|turns| - 1].frames
  }

  predicate Live(p: Pages, c: Conn) { c !in p.closed && c in p.onPage }

  /** A live page keeps the session, except from a newer socket of the same named tab. */
  predicate Refuses(p: Pages, c: Conn) {
    && p.attached.Some? && p.attached.value != c && Live(p, p.attached.value)
    && (c.client == [] || c.client != p.attached.value.client)
  }

  function Refuse(p: Pages, c: Conn): Pages { p.(status := p.status[c := Refused]) }

  function Admit(p: Pages, c: Conn, since: Since): Pages {
    var takesOver := p.attached.Some? && p.attached.value != c;
    p.(attached := Some(c),
       onPage := if takesOver then p.onPage - {p.attached.value} else p.onPage,
       status := (if takesOver then p.status[p.attached.value := Replaced] else p.status)[c := Attached],
       handed := p.handed[c := []],
       since := p.since[c := since])
  }

  function Leave(p: Pages, c: Conn): Pages { p.(attached := None, status := p.status[c := Gone]) }

  function Unaimed(w: Worker): Option<Frame> { if w.sending.Logged? then Some(w.sending.frame) else None }

  function SinceNow(s: State): Since { Since(if s.book.begun == 0 then 0 else s.book.begun - 1, Unaimed(s.worker)) }

  predicate Open(p: Pages, c: Conn) { c in p.status && p.status[c] != Refused && c !in p.closed }

  /** Setting the token that is installed; with none installed a cancel asks for nothing. */
  function Cancelled(t: Tokens, why: Reason): Tokens {
    if t.token == None then t
    else t.(raised := t.raised + {t.token.value}, causes := t.causes + [Cause(t.token.value, why)],
            cancelRequested := t.cancelRequested || why.ByPage?)
  }

  predicate SocketEnabled(s: State, a: Action) {
    match a
    case Submit(c) => s.sockets.Free? && Open(s.pages, c)
    case SubmitFromPeer(_) => s.sockets.Free?
    case PageCancel(c) => s.sockets.Free? && Open(s.pages, c)
    case Attach(c) => s.sockets.Free? && c !in s.pages.status
    case HandPending => s.sockets.Attaching? && s.sockets.pending != []
    case EnterPage => s.sockets.Attaching? && s.sockets.pending == []
    case Close(c) => s.sockets.Free? && c in s.pages.status && c !in s.pages.closed
    case LeavePage => s.sockets.Closed?
    case Detach => s.sockets.OffPage?
    case CancelLeft => s.sockets.LeftAlone?
    case Join => s.sockets.Free?
    case StopJobs => s.sockets.Joined?
    case StopToken => s.sockets.StopAsked?
    case _ => false
  }

  function SocketStep(s: State, a: Action): State
    requires SocketEnabled(s, a)
  {
    var p := s.pages;
    match a
    case Submit(c) => s.(queue := s.queue.(jobs := s.queue.jobs + [Job(Some(c), [])]))
    case SubmitFromPeer(peer) => s.(queue := s.queue.(jobs := s.queue.jobs + [Job(None, peer)]))
    case PageCancel(c) => s.(tokens := Cancelled(s.tokens, ByPage(c)))
    case Attach(c) =>
      if Refuses(p, c) then s.(pages := Refuse(p, c))
      else s.(pages := Admit(p, c, SinceNow(s)), sockets := Attaching(c, FramesForNextPage(s.book.turns)))
    case HandPending =>
      s.(pages := Hand(p, s.sockets.conn, s.sockets.pending[0]), sockets := Attaching(s.sockets.conn, s.sockets.pending[1..]))
    case EnterPage => s.(pages := p.(onPage := p.onPage + {s.sockets.conn}), sockets := Free)
    case Close(c) => s.(pages := p.(closed := p.closed + {c}), sockets := Closed(c))
    case LeavePage => s.(pages := p.(onPage := p.onPage - {s.sockets.conn}), sockets := OffPage(s.sockets.conn))
    case Detach =>
      if p.attached == Some(s.sockets.conn) then s.(pages := Leave(p, s.sockets.conn), sockets := LeftAlone(s.sockets.conn, s.tokens.token))
      else s.(sockets := Free)
    case CancelLeft => s.(tokens := Cancelled(s.tokens, ByClose(s.sockets.conn)), sockets := Free)
    case Join => s.(sockets := Joined)
    case StopJobs => s.(queue := s.queue.(stopping := true, jobs := []), sockets := StopAsked)
    case StopToken => s.(tokens := Cancelled(s.tokens, ByStop), sockets := Over)
  }

  // ---------------------------------------------------------------- runs

  predicate Enabled(s: State, a: Action) { WorkerEnabled(s, a) || SocketEnabled(s, a) }

  function Step(s: State, a: Action): State
    requires Enabled(s, a)
  {
    if WorkerEnabled(s, a) then WorkerStep(s, a) else SocketStep(s, a)
  }

  predicate IsRun(s: State, run: seq<Action>)
    decreases |run|
  {
    run == [] || (Enabled(s, run[0]) && IsRun(Step(s, run[0]), run[1..]))
  }

  function After(s: State, run: seq<Action>): State
    requires IsRun(s, run)
    decreases |run|
  {
    if run == [] then s else After(Step(s, run[0]), run[1..])
  }
}
