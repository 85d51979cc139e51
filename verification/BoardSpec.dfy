/**
  The job board as a value (src/serve/board.cpp): jobs, the peers last seen, and the audit; what each verb
  answers and leaves. A refused verb leaves the board as it was. Stamps are integers; new ids are parameters.
*/
module BoardSpec {
  import opened Sequences
  import opened Wrappers
  import opened Cursors

  datatype JobState = Open | Claimed | Working | Blocked | Done | Failed | Cancelled

  datatype Job = Job(
    id: string, from: string, to: string, intent: string, state: JobState, dueAt: Option<int>,
    createdAt: int, updatedAt: int, result: Option<string>, question: Option<string>, note: string,
    declinedBy: Option<string>, declines: nat, chases: nat)

  predicate Closed(j: Job) { j.state.Done? || j.state.Failed? || j.state.Cancelled? }

  datatype JobUpdate = JobUpdate(state: string, result: string, question: string, note: string)

  datatype JobRequest = JobRequest(
    job: string, from: string, to: string, intent: string, due: Option<string>,
    state: string, result: string, question: string, note: string)

  datatype JobOutcome = JobOutcome(id: string, state: JobState, result: Option<string>)

  datatype Presence = Presence(name: string, lastSeen: int, state: string, job: string)

  datatype AuditEntry = AuditEntry(at: int, kind: string, peer: string, job: string, text: string)

  datatype View = View(jobs: seq<Job>, peers: seq<Presence>, audit: seq<AuditEntry>)

  const EMPTY := View([], [], [])

  const MAX_OPEN := 32
  const MAX_AUDIT := 64
  const MAX_CLOSED_KEPT := 128
  const MAX_SETTLED_SHOWN := 3

  // ---------------------------------------------------------------- words

  function StateName(s: JobState): string {
    match s
    case Open => "open"
    case Claimed => "claimed"
    case Working => "working"
    case Blocked => "blocked"
    case Done => "done"
    case Failed => "failed"
    case Cancelled => "cancelled"
  }

  /** A peer has no word for cancelled. */
  function ParseState(name: string): Option<JobState> {
    if name == "open" then Some(Open)
    else if name == "claimed" then Some(Claimed)
    else if name == "working" then Some(Working)
    else if name == "blocked" then Some(Blocked)
    else if name == "done" then Some(Done)
    else if name == "failed" then Some(Failed)
    else None
  }

  lemma StateReadBack(s: JobState)
    ensures ParseState(StateName(s)) == if s.Cancelled? then None else Some(s)
  {
    assert |"open"| == 4 && |"claimed"| == 7 && |"working"| == 7 && |"blocked"| == 7 && |"done"| == 4 && |"failed"| == 6;
    assert "claimed"[0] != "working"[0] && "claimed"[0] != "blocked"[0] && "working"[0] != "blocked"[0] && "open"[0] != "done"[0];
  }

  const MAX_COUNT := 9_223_372_036_854_775_807

  function LeadingDigits(text: string): (n: nat)
    ensures n <= |text| && AllDigits(text[..n]) && (n < |text| ==> !IsDigit(text[n]))
  {
    if text == "" || !IsDigit(text[0]) then 0
    else
      var n := LeadingDigits(text[1..]);
      assert text[..n + 1] == [text[0]] + text[1..][..n];
      n + 1
  }

  function UnitSeconds(unit: string): nat {
    if unit == "s" then 1 else if unit == "m" then 60 else if unit == "h" then 3600 else if unit == "d" then 86400 else 0
  }

  /** A positive count and a unit, in seconds. */
  function Duration(text: string): Option<nat> {
    var split := LeadingDigits(text);
    if split == 0 || Value(text[..split]) > MAX_COUNT || Value(text[..split]) == 0 || UnitSeconds(text[split..]) == 0 then None
    else Some(Value(text[..split]) * UnitSeconds(text[split..]))
  }

  lemma {:induction false} LeadingDigitsOf(digits: string, rest: string)
    requires AllDigits(digits) && (rest != "" ==> !IsDigit(rest[0]))
    ensures LeadingDigits(digits + rest) == |digits|
  {
    if digits == "" {
      assert digits + rest == rest;
    } else {
      assert (digits + rest)[1..] == digits[1..] + rest;
      LeadingDigitsOf(digits[1..], rest);
    }
  }

  /** A written duration is read as what it says. */
  lemma DurationReadBack(n: nat, unit: string)
    requires unit in {"s", "m", "h", "d"}
    ensures Duration(Decimal(n) + unit) == if 0 < n <= MAX_COUNT then Some(n * UnitSeconds(unit)) else None
  {
    var text := Decimal(n) + unit;
    LeadingDigitsOf(Decimal(n), unit);
    assert text[..|Decimal(n)|] == Decimal(n) && text[|Decimal(n)|..] == unit;
    ValueOfDecimal(n);
  }

  // ---------------------------------------------------------------- one job

  /** What a peer says of a job it holds; no state of that name, or a block without its question, is refused. */
  function Moved(j: Job, u: JobUpdate, now: int): Option<Job> {
    match ParseState(u.state)
    case None => None
    case Some(Open) => Some(j.(state := Open, dueAt := None, question := None, result := None, updatedAt := now))
    case Some(Claimed) => Some(j.(state := Claimed, question := None, declinedBy := None, updatedAt := now))
    case Some(Working) => Some(j.(state := Working, question := None, declinedBy := None, updatedAt := now))
    case Some(Blocked) => if u.question == "" then None else Some(j.(state := Blocked, question := Some(u.question), updatedAt := now))
    case Some(Done) => Some(j.(state := Done, result := if u.result == "" then j.result else Some(u.result), updatedAt := now))
    case Some(Failed) => Some(j.(state := Failed, result := Some(if u.result == "" then "failed" else u.result), updatedAt := now))
    case Some(Cancelled) => None
  }

  predicate Declines(state: string) { state == "open" }

  predicate Starts(state: string) { state == "claimed" || state == "working" }

  /** Saying open again declines the job, which the same peer does once. */
  function Updated(j: Job, u: JobUpdate, peer: string, now: int): Option<Job> {
    if Declines(u.state) && j.declinedBy == Some(peer) then None
    else
      match Moved(if Declines(u.state) then j.(declines := j.declines + 1, declinedBy := Some(peer)) else j, u, now)
      case None => None
      case Some(m) => Some(if u.note == "" then m else m.(note := u.note))
  }

  function Answered(j: Job, answer: string, now: int): Option<Job> {
    if j.state.Blocked? then Some(j.(note := answer, question := None, state := Working, updatedAt := now)) else None
  }

  function Chased(j: Job, note: string, now: int): Job {
    j.(note := note, question := None, chases := j.chases + 1, updatedAt := now)
  }

  function Dropped(j: Job, note: string, now: int): Job {
    j.(state := Cancelled, note := note, question := None, updatedAt := now)
  }

  // ---------------------------------------------------------------- the list of jobs

  function Lookup(jobs: seq<Job>, id: string): Option<Job> {
    if jobs == [] then None else if jobs[0].id == id then Some(jobs[0]) else Lookup(jobs[1..], id)
  }

  function Replace(jobs: seq<Job>, j: Job): seq<Job> {
    if jobs == [] then [] else if jobs[0].id == j.id then [j] + jobs[1..] else [jobs[0]] + Replace(jobs[1..], j)
  }

  function OpenCount(jobs: seq<Job>): nat {
    if jobs == [] then 0 else (if Closed(jobs[0]) then 0 else 1) + OpenCount(jobs[1..])
  }

  /** Into a list by update time, before the first that is later or as late. */
  function Insert(j: Job, jobs: seq<Job>): seq<Job> {
    if jobs == [] || j.updatedAt <= jobs[0].updatedAt then [j] + jobs else [jobs[0]] + Insert(j, jobs[1..])
  }

  /** The stable sort by update time. */
  function Sorted(jobs: seq<Job>): seq<Job> {
    if jobs == [] then [] else Insert(jobs[0], Sorted(jobs[1..]))
  }

  /** Beyond the jobs kept, the one longest without an update goes, whatever its state. */
  function Kept(jobs: seq<Job>): seq<Job> {
    if |jobs| > MAX_OPEN + MAX_CLOSED_KEPT then Drop(Sorted(jobs)) else jobs
  }

  function Drop(jobs: seq<Job>): seq<Job> { if jobs == [] then [] else jobs[1..] }

  function Recorded(audit: seq<AuditEntry>, e: AuditEntry): seq<AuditEntry> { Last(audit + [e]) }

  function Last(audit: seq<AuditEntry>): seq<AuditEntry> {
    if |audit| > MAX_AUDIT then audit[|audit| - MAX_AUDIT..] else audit
  }

  function SeenPeers(peers: seq<Presence>, peer: string, j: Job): seq<Presence> {
    seq(|peers|, i requires 0 <= i < |peers| =>
      if peers[i].name == peer then peers[i].(state := StateName(j.state), job := j.id) else peers[i])
  }

  function Touched(peers: seq<Presence>, peer: string, state: string, now: int): seq<Presence> {
    if peers == [] then [Presence(peer, now, state, "")]
    else if peers[0].name == peer then
      [peers[0].(lastSeen := now, state := if state == "" then peers[0].state else state)] + peers[1..]
    else [peers[0]] + Touched(peers[1..], peer, state, now)
  }

  // ---------------------------------------------------------------- verbs

  datatype Verb =
    | Post(request: JobRequest, id: string, now: int)
    | Update(request: JobRequest, now: int)
    | Answer(job: string, text: string, now: int)
    | Chase(job: string, text: string, now: int)
    | Cancel(job: string, text: string, now: int)
    | Touch(peer: string, state: string, now: int)

  datatype Reply = Refused | NotFound | Accepted(job: Job, outcome: Option<JobOutcome>) | Seen

  function NewJob(r: JobRequest, id: string, now: int): Job {
    Job(id, r.from, r.to, r.intent, Open, if r.due.Some? && Duration(r.due.value).Some? then Some(now + Duration(r.due.value).value) else None,
        now, now, None, None, "", None, 0, 0)
  }

  predicate MayPost(b: View, r: JobRequest) {
    r.to != "" && r.intent != "" && OpenCount(b.jobs) < MAX_OPEN && (r.due.Some? ==> Duration(r.due.value).Some?)
  }

  /** The job a verb other than a post is about. */
  function About(v: Verb): string
    requires !v.Post? && !v.Touch?
  {
    if v.Update? then v.request.job else v.job
  }

  function SaidOf(r: JobRequest): JobUpdate { JobUpdate(r.state, r.result, r.question, r.note) }

  /** What the verb makes of the job, when it is allowed to. */
  function Changed(j: Job, v: Verb): Option<Job>
    requires !v.Post? && !v.Touch?
  {
    match v
    case Update(r, now) => if j.to != r.from || Closed(j) then None else Updated(j, SaidOf(r), r.from, now)
    case Answer(_, text, now) => if Closed(j) then None else Answered(j, text, now)
    case Chase(_, text, now) => if Closed(j) then None else Some(Chased(j, text, now))
    case Cancel(_, text, now) => if Closed(j) then None else Some(Dropped(j, text, now))
  }

  predicate WellSaid(v: Verb) { v.Update? ==> v.request.job != "" && v.request.from != "" }

  function EntryOf(v: Verb): AuditEntry
    requires !v.Touch?
  {
    match v
    case Post(r, id, now) => AuditEntry(now, "post", r.from, id, r.intent)
    case Update(r, now) => AuditEntry(now, if r.state == "" then "note" else r.state, r.from, r.job, r.note)
    case Answer(id, text, now) => AuditEntry(now, "answer", "", id, text)
    case Chase(id, text, now) => AuditEntry(now, "chase", "", id, text)
    case Cancel(id, text, now) => AuditEntry(now, "drop", "", id, text)
  }

  function OutcomeOf(j: Job, v: Verb): Option<JobOutcome> {
    if v.Cancel? then Some(JobOutcome(j.id, j.state, None))
    else if v.Update? && Closed(j) then Some(JobOutcome(j.id, j.state, j.result))
    else None
  }

  function ReplyTo(b: View, v: Verb): Reply {
    if v.Touch? then Seen
    else if v.Post? then if MayPost(b, v.request) then Accepted(NewJob(v.request, v.id, v.now), None) else Refused
    else if !WellSaid(v) then Refused
    else match Lookup(b.jobs, About(v))
      case None => NotFound
      case Some(j) =>
        match Changed(j, v)
        case None => Refused
        case Some(k) => Accepted(k, OutcomeOf(k, v))
  }

  /** The board after a verb: changed only where the verb is accepted, or a peer is seen. */
  function Next(b: View, v: Verb): View {
    if v.Touch? then if v.peer == "" then b else b.(peers := Touched(b.peers, v.peer, v.state, v.now))
    else if !ReplyTo(b, v).Accepted? then b
    else
      var j := ReplyTo(b, v).job;
      View(if v.Post? then Kept(b.jobs + [j]) else Replace(b.jobs, j),
           if v.Update? then SeenPeers(b.peers, v.request.from, j) else b.peers,
           Recorded(b.audit, EntryOf(v)))
  }
}
