/**
  The job board (src/serve/board.cpp): each verb over the fields, and what a page is shown.
*/
module Boards {
  import opened Sequences
  import opened Wrappers
  import opened Cursors
  import opened BoardSpec
  import opened BoardRuns

  method ParseDuration(text: string) returns (r: Option<nat>)
    ensures r == Duration(text)
  {
    var split := 0;
    while split < |text| && IsDigit(text[split])
      invariant 0 <= split <= |text|
      invariant split + LeadingDigits(text[split..]) == LeadingDigits(text)
    {
      assert text[split..][1..] == text[split + 1..];
      split := split + 1;
    }
    if split == 0 { return None; }
    var count := Value(text[..split]);
    if count > MAX_COUNT || count <= 0 { return None; }
    var scale := UnitSeconds(text[split..]);
    if scale == 0 { return None; }
    r := Some(count * scale);
  }

  lemma {:induction false} FirstWithId(jobs: seq<Job>, at: nat, id: string)
    requires at <= |jobs| && forall k | 0 <= k < at :: jobs[k].id != id
    ensures Lookup(jobs, id) == Lookup(jobs[at..], id)
    ensures at < |jobs| && jobs[at].id == id ==> Lookup(jobs, id) == Some(jobs[at])
  {
    if at > 0 {
      assert jobs[1..][at - 1..] == jobs[at..];
      FirstWithId(jobs[1..], at - 1, id);
    }
  }

  lemma {:induction false} ReplaceFirst(jobs: seq<Job>, at: nat, j: Job)
    requires at < |jobs| && jobs[at].id == j.id && forall k | 0 <= k < at :: jobs[k].id != j.id
    ensures Replace(jobs, j) == jobs[at := j]
  {
    if at > 0 { ReplaceFirst(jobs[1..], at - 1, j); }
  }

  method FindJob(jobs: seq<Job>, id: string) returns (at: nat)
    ensures at <= |jobs| && forall k | 0 <= k < at :: jobs[k].id != id
    ensures Lookup(jobs, id) == if at < |jobs| then Some(jobs[at]) else None
    ensures at < |jobs| ==> jobs[at].id == id
  {
    at := 0;
    while at < |jobs| && jobs[at].id != id
      invariant 0 <= at <= |jobs| && forall k | 0 <= k < at :: jobs[k].id != id
    {
      at := at + 1;
    }
    FirstWithId(jobs, at, id);
  }

  method CountOpen(jobs: seq<Job>) returns (n: nat)
    ensures n == OpenCount(jobs)
  {
    n := 0;
    for i := 0 to |jobs|
      invariant n + OpenCount(jobs[i..]) == OpenCount(jobs)
    {
      assert jobs[i..][1..] == jobs[i + 1..];
      if !Closed(jobs[i]) { n := n + 1; }
    }
  }

  /** What a peer says of the job it holds, one state at a time; a refused move leaves it. */
  method Move(j: Job, u: JobUpdate, now: int) returns (r: Option<Job>)
    ensures r == Moved(j, u, now)
  {
    var next := ParseState(u.state);
    if next == None { return None; }
    var job := j;
    match next.value {
      case Open => job := job.(state := Open, dueAt := None, question := None, result := None);
      case Claimed => job := job.(state := Claimed, question := None, declinedBy := None);
      case Working => job := job.(state := Working, question := None, declinedBy := None);
      case Blocked =>
        if u.question == "" { return None; }
        job := job.(state := Blocked, question := Some(u.question));
      case Done =>
        job := job.(state := Done);
        if u.result != "" { job := job.(result := Some(u.result)); }
      case Failed => job := job.(state := Failed, result := Some(if u.result == "" then "failed" else u.result));
      case Cancelled => return None;
    }
    r := Some(job.(updatedAt := now));
  }

  class Board {
    var jobs: seq<Job>
    var peers: seq<Presence>
    var audit: seq<AuditEntry>

    function State(): View
      reads this
    {
      View(jobs, peers, audit)
    }

    constructor ()
      ensures State() == EMPTY
    {
      jobs, peers, audit := [], [], [];
    }

    method Record(e: AuditEntry)
      modifies `audit
      ensures audit == Recorded(old(audit), e)
    {
      var all := audit + [e];
      var kept := all;
      while |kept| > MAX_AUDIT
        invariant |kept| <= |all| && kept == all[|all| - |kept|..]
        invariant |all| <= MAX_AUDIT ==> kept == all
        invariant |all| > MAX_AUDIT ==> |kept| >= MAX_AUDIT
        decreases |kept|
      {
        kept := kept[1..];
      }
      audit := kept;
    }

    method TouchPeer(peer: string, state: string, now: int)
      modifies `peers
      ensures State() == Next(old(State()), Touch(peer, state, now))
    {
      if peer == "" { return; }
      var i := 0;
      while i < |peers| && peers[i].name != peer
        invariant 0 <= i <= |peers| && peers == old(peers)
        invariant Touched(peers, peer, state, now) == peers[..i] + Touched(peers[i..], peer, state, now)
      {
        assert peers[i..][1..] == peers[i + 1..];
        SeqAssoc(peers[..i], [peers[i]], Touched(peers[i + 1..], peer, state, now));
        assert peers[..i] + [peers[i]] == peers[..i + 1];
        i := i + 1;
      }
      if i == |peers| {
        assert peers[..i] == peers && peers[i..] == [];
        peers := peers + [Presence(peer, now, state, "")];
      } else {
        var p := peers[i].(lastSeen := now);
        if state != "" { p := p.(state := state); }
        assert peers[i..][1..] == peers[i + 1..] && peers[..i] + ([p] + peers[i + 1..]) == peers[i := p];
        peers := peers[i := p];
      }
    }

    method Post(r: JobRequest, id: string, now: int) returns (reply: Reply)
      modifies this
      ensures State() == Next(old(State()), Verb.Post(r, id, now)) && reply == ReplyTo(old(State()), Verb.Post(r, id, now))
    {
      hide OpenCount, Duration, Sorted;
      if r.to == "" || r.intent == "" { return Refused; }
      var open := CountOpen(jobs);
      if open >= MAX_OPEN { return Refused; }
      var job := Job(id, r.from, r.to, r.intent, Open, None, now, now, None, None, "", None, 0, 0);
      if r.due.Some? {
        var span := ParseDuration(r.due.value);
        if span == None { return Refused; }
        job := job.(dueAt := Some(now + span.value));
      }
      jobs := jobs + [job];
      if |jobs| > MAX_OPEN + MAX_CLOSED_KEPT {
        SortedIs(jobs, "");
        jobs := Sorted(jobs)[1..];
      }
      Record(AuditEntry(now, "post", job.from, job.id, job.intent));
      reply := Accepted(job, None);
    }

    method Update(r: JobRequest, now: int) returns (reply: Reply)
      modifies this
      ensures State() == Next(old(State()), Verb.Update(r, now)) && reply == ReplyTo(old(State()), Verb.Update(r, now))
    {
      if r.job == "" || r.from == "" { return Refused; }
      var at := FindJob(jobs, r.job);
      if at == |jobs| { return NotFound; }
      ghost var before := jobs;
      var job := jobs[at];
      if job.to != r.from || Closed(job) { return Refused; }
      var u := JobUpdate(r.state, r.result, r.question, r.note);
      if u.state == "open" {
        if job.declinedBy == Some(r.from) { return Refused; }
        job := job.(declines := job.declines + 1, declinedBy := Some(r.from));
        jobs := jobs[at := job];
        MoveToOpenIsNeverRefused(job, u, now);
      }
      var moved := Move(job, u, now);
      if moved == None { return Refused; }
      job := moved.value;
      if u.note != "" { job := job.(note := u.note); }
      ChangedId(before[at], Verb.Update(r, now));
      ReplaceFirst(before, at, job);
      jobs := jobs[at := job];
      assert jobs == before[at := job];
      Record(AuditEntry(now, if u.state == "" then "note" else u.state, r.from, r.job, u.note));
      reply := Accepted(job, if Closed(job) then Some(JobOutcome(job.id, job.state, job.result)) else None);
      SeePeer(r.from, job);
    }

    lemma ChangedId(j: Job, v: Verb)
      requires !v.Post? && !v.Touch? && Changed(j, v).Some?
      ensures Changed(j, v).value.id == j.id
    {}

    method SeePeer(peer: string, j: Job)
      modifies `peers
      ensures peers == SeenPeers(old(peers), peer, j)
    {
      var seen := peers;
      for i := 0 to |seen|
        invariant |seen| == |peers| && peers == old(peers)
        invariant forall k | 0 <= k < i :: seen[k] == SeenPeers(peers, peer, j)[k]
        invariant forall k | i <= k < |seen| :: seen[k] == peers[k]
      {
        if seen[i].name == peer { seen := seen[i := seen[i].(state := StateName(j.state), job := j.id)]; }
      }
      assert seen == SeenPeers(peers, peer, j);
      peers := seen;
    }

    method Answer(id: string, answer: string, now: int) returns (reply: Reply)
      modifies this
      ensures State() == Next(old(State()), Verb.Answer(id, answer, now)) && reply == ReplyTo(old(State()), Verb.Answer(id, answer, now))
    {
      var at := FindJob(jobs, id);
      if at == |jobs| { return NotFound; }
      if Closed(jobs[at]) || !jobs[at].state.Blocked? { return Refused; }
      var job := jobs[at].(note := answer, question := None, state := Working, updatedAt := now);
      ReplaceFirst(jobs, at, job);
      jobs := jobs[at := job];
      Record(AuditEntry(now, "answer", "", id, answer));
      reply := Accepted(job, None);
    }

    method Chase(id: string, note: string, now: int) returns (reply: Reply)
      modifies this
      ensures State() == Next(old(State()), Verb.Chase(id, note, now)) && reply == ReplyTo(old(State()), Verb.Chase(id, note, now))
    {
      var at := FindJob(jobs, id);
      if at == |jobs| { return NotFound; }
      if Closed(jobs[at]) { return Refused; }
      var job := jobs[at].(note := note, question := None, chases := jobs[at].chases + 1, updatedAt := now);
      ReplaceFirst(jobs, at, job);
      jobs := jobs[at := job];
      Record(AuditEntry(now, "chase", "", id, note));
      reply := Accepted(job, None);
    }

    method Drop(id: string, note: string, now: int) returns (reply: Reply)
      modifies this
      ensures State() == Next(old(State()), Verb.Cancel(id, note, now)) && reply == ReplyTo(old(State()), Verb.Cancel(id, note, now))
    {
      var at := FindJob(jobs, id);
      if at == |jobs| { return NotFound; }
      if Closed(jobs[at]) { return Refused; }
      var job := jobs[at].(state := Cancelled, note := note, question := None, updatedAt := now);
      ReplaceFirst(jobs, at, job);
      jobs := jobs[at := job];
      Record(AuditEntry(now, "drop", "", id, note));
      reply := Accepted(job, Some(JobOutcome(job.id, job.state, None)));
    }

    method Find(id: string) returns (r: Option<Job>)
      ensures r == Lookup(jobs, id)
    {
      var at := FindJob(jobs, id);
      r := if at < |jobs| then Some(jobs[at]) else None;
    }

    /** A page is shown every unfinished job, in order, and the few that settled last. */
    method Page() returns (open: seq<Job>, settled: seq<Job>)
      ensures open == Unfinished(jobs)
      ensures AreNewest(settled, Settled(jobs))
    {
      var closed;
      open, closed := SplitClosed(jobs);
      settled := NewestOf(closed);
    }
  }

  function Unfinished(jobs: seq<Job>): seq<Job> {
    if jobs == [] then [] else (if Closed(jobs[0]) then [] else [jobs[0]]) + Unfinished(jobs[1..])
  }

  function Settled(jobs: seq<Job>): seq<Job> {
    if jobs == [] then [] else (if Closed(jobs[0]) then [jobs[0]] else []) + Settled(jobs[1..])
  }

  /** The two parts of a page are the unfinished jobs and the closed ones, every job in one of them. */
  lemma {:induction false} PartsOfPage(jobs: seq<Job>)
    ensures multiset(Unfinished(jobs)) + multiset(Settled(jobs)) == multiset(jobs)
    ensures forall j | j in Unfinished(jobs) :: !j.state.Done? && !j.state.Failed? && !j.state.Cancelled?
    ensures forall j | j in Settled(jobs) :: j.state.Done? || j.state.Failed? || j.state.Cancelled?
  {
    if jobs != [] {
      PartsOfPage(jobs[1..]);
      assert jobs == [jobs[0]] + jobs[1..];
    }
  }

  method SplitClosed(jobs: seq<Job>) returns (open: seq<Job>, closed: seq<Job>)
    ensures open == Unfinished(jobs) && closed == Settled(jobs)
  {
    open, closed := [], [];
    for i := 0 to |jobs|
      invariant open + Unfinished(jobs[i..]) == Unfinished(jobs)
      invariant closed + Settled(jobs[i..]) == Settled(jobs)
    {
      assert jobs[i..][1..] == jobs[i + 1..];
      if Closed(jobs[i]) {
        SeqAssoc(closed, [jobs[i]], Settled(jobs[i + 1..]));
        closed := closed + [jobs[i]];
      } else {
        SeqAssoc(open, [jobs[i]], Unfinished(jobs[i + 1..]));
        open := open + [jobs[i]];
      }
    }
  }

  /** Three of the jobs at most, newest first, and none left out newer than any shown. */
  ghost predicate AreNewest(shown: seq<Job>, jobs: seq<Job>) {
    && |shown| == (if |jobs| > MAX_SETTLED_SHOWN then MAX_SETTLED_SHOWN else |jobs|)
    && (forall i, k | 0 <= i < k < |shown| :: shown[i].updatedAt >= shown[k].updatedAt)
    && exists rest: seq<Job> :: multiset(rest) + multiset(shown) == multiset(jobs) && NoneNewer(rest, shown)
  }

  predicate NoneNewer(rest: seq<Job>, shown: seq<Job>) {
    forall i, k | 0 <= i < |rest| && 0 <= k < |shown| :: rest[i].updatedAt <= shown[k].updatedAt
  }

  function Reversed(jobs: seq<Job>): seq<Job> {
    seq(|jobs|, i requires 0 <= i < |jobs| => jobs[|jobs| - 1 - i])
  }

  lemma {:induction false} ReversedSame(jobs: seq<Job>)
    ensures multiset(Reversed(jobs)) == multiset(jobs)
  {
    if jobs != [] {
      ReversedSame(jobs[1..]);
      assert Reversed(jobs) == Reversed(jobs[1..]) + [jobs[0]];
      assert jobs == [jobs[0]] + jobs[1..];
    }
  }

  lemma BackwardsIsNewest(front: seq<Job>, back: seq<Job>, sorted: seq<Job>)
    requires sorted == front + back && ByUpdate(sorted)
    ensures NoneNewer(front, Reversed(back))
    ensures forall i, k | 0 <= i < k < |back| :: Reversed(back)[i].updatedAt >= Reversed(back)[k].updatedAt
  {
    forall i, k | 0 <= i < |front| && 0 <= k < |back| ensures front[i].updatedAt <= Reversed(back)[k].updatedAt {
      assert sorted[i] == front[i] && sorted[|sorted| - 1 - k] == back[|back| - 1 - k];
    }
    forall i, k | 0 <= i < k < |back| ensures Reversed(back)[i].updatedAt >= Reversed(back)[k].updatedAt {
      assert sorted[|sorted| - 1 - i] == back[|back| - 1 - i] && sorted[|sorted| - 1 - k] == back[|back| - 1 - k];
    }
  }

  lemma LastAreNewest(jobs: seq<Job>, sorted: seq<Job>, front: seq<Job>, back: seq<Job>)
    requires sorted == front + back && ByUpdate(sorted) && multiset(sorted) == multiset(jobs) && |sorted| == |jobs|
    requires |back| == if |jobs| > MAX_SETTLED_SHOWN then MAX_SETTLED_SHOWN else |jobs|
    ensures AreNewest(Reversed(back), jobs)
  {
    BackwardsIsNewest(front, back, sorted);
    ReversedSame(back);
    hide ByUpdate, NoneNewer;
    assert |Reversed(back)| == |back|;
    assert multiset(front) + multiset(Reversed(back)) == multiset(jobs);
  }

  /** The last few by update time, newest first. */
  method NewestOf(jobs: seq<Job>) returns (shown: seq<Job>)
    ensures AreNewest(shown, jobs)
  {
    SortedIs(jobs, "");
    SortedSorts(jobs);
    var sorted := Sorted(jobs);
    var n := if |sorted| > MAX_SETTLED_SHOWN then |sorted| - MAX_SETTLED_SHOWN else 0;
    hide Sorted, ByUpdate, AreNewest;
    shown := Reversed(sorted[n..]);
    assert sorted[..n] + sorted[n..] == sorted;
    LastAreNewest(jobs, sorted, sorted[..n], sorted[n..]);
  }
}
