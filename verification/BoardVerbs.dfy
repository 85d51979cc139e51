/**
  What each verb of the job board says (src/serve/board.cpp), field by field: when it is accepted, what it
  leaves of the job, and what it answers.
*/
module BoardVerbs {
  import opened Wrappers
  import opened Cursors
  import opened BoardSpec
  import opened BoardRuns

  /** The words a peer has for a state. */
  predicate IsWord(word: string) { word in {"open", "claimed", "working", "blocked", "done", "failed"} }

  /** Whose job it is, what it asks and when it was posted never change, nor how often it was asked about. */
  predicate SameTask(a: Job, b: Job) {
    a.id == b.id && a.from == b.from && a.to == b.to && a.intent == b.intent && a.createdAt == b.createdAt
  }

  lemma WordsDiffer()
    ensures "open" != "claimed" && "open" != "working" && "open" != "blocked" && "open" != "done" && "open" != "failed"
    ensures "claimed" != "working" && "claimed" != "blocked" && "claimed" != "done" && "claimed" != "failed"
    ensures "working" != "blocked" && "working" != "done" && "working" != "failed"
    ensures "blocked" != "done" && "blocked" != "failed" && "done" != "failed"
  {
    assert |"open"| == 4 && |"claimed"| == 7 && |"working"| == 7 && |"blocked"| == 7 && |"done"| == 4 && |"failed"| == 6;
    assert "claimed"[0] != "working"[0] && "claimed"[0] != "blocked"[0] && "working"[0] != "blocked"[0] && "open"[0] != "done"[0];
  }

  /** What an update leaves of the result and the question: those said with the state they belong to. */
  predicate UpdateAnswers(was: Job, r: JobRequest, now: Job) {
    && (r.state == "done" ==> now.result == if r.result != "" then Some(r.result) else was.result)
    && (r.state == "failed" ==> now.result == if r.result != "" then Some(r.result) else Some("failed"))
    && (r.state == "claimed" || r.state == "working" || r.state == "blocked" ==> now.result == was.result)
    && (r.state == "open" ==> now.result == None)
    && (r.state == "blocked" ==> r.question != "" && now.question == Some(r.question))
    && (r.state == "open" || r.state == "claimed" || r.state == "working" ==> now.question == None)
    && (r.state == "done" || r.state == "failed" ==> now.question == was.question)
  }

  /** What it leaves of the dates, the note and the declines. */
  predicate UpdateMarks(was: Job, r: JobRequest, at: int, now: Job) {
    && now.updatedAt == at && now.chases == was.chases
    && now.dueAt == (if r.state == "open" then None else was.dueAt)
    && now.note == (if r.note != "" then r.note else was.note)
    && now.declines == was.declines + (if r.state == "open" then 1 else 0)
    && now.declinedBy == if r.state == "open" then Some(r.from)
                         else if r.state == "claimed" || r.state == "working" then None
                         else was.declinedBy
  }

  lemma UpdateChanges(was: Job, r: JobRequest, at: int)
    requires Changed(was, Update(r, at)).Some?
    ensures var now := Changed(was, Update(r, at)).value;
      IsWord(r.state) && StateName(now.state) == r.state && SameTask(was, now)
    ensures var now := Changed(was, Update(r, at)).value;
      UpdateAnswers(was, r, now) && UpdateMarks(was, r, at, now)
  {
    WordsDiffer();
  }

  lemma UpdateAccepts(was: Job, r: JobRequest, at: int)
    ensures Changed(was, Update(r, at)).Some? <==>
      && was.to == r.from && !Closed(was) && IsWord(r.state)
      && (r.state == "blocked" ==> r.question != "")
      && (r.state == "open" ==> was.declinedBy != Some(r.from))
  {
    WordsDiffer();
  }

  /**
    An update is accepted exactly from the peer the job is for, while it is unfinished, naming one of six states,
    a block with its question and a decline only once.
  */
  lemma UpdateAcceptedIff(b: View, r: JobRequest, at: int)
    ensures ReplyTo(b, Update(r, at)).Accepted? <==>
      && r.job != "" && r.from != "" && Lookup(b.jobs, r.job).Some?
      && var was := Lookup(b.jobs, r.job).value;
        && was.to == r.from && !Closed(was) && IsWord(r.state)
        && (r.state == "blocked" ==> r.question != "")
        && (r.state == "open" ==> was.declinedBy != Some(r.from))
    ensures r.job != "" && r.from != "" && Lookup(b.jobs, r.job) == None ==> ReplyTo(b, Update(r, at)) == NotFound
  {
    if Lookup(b.jobs, r.job).Some? { UpdateAccepts(Lookup(b.jobs, r.job).value, r, at); }
    hide Changed, IsWord, Lookup;
  }

  /** What an accepted update leaves on the board, answers, and says of the peer. */
  lemma UpdateSays(b: View, r: JobRequest, at: int)
    requires Inv(b) && ReplyTo(b, Update(r, at)).Accepted?
    ensures var (was, reply, after) := (Lookup(b.jobs, r.job).value, ReplyTo(b, Update(r, at)), Next(b, Update(r, at)));
      && Lookup(after.jobs, r.job) == Some(reply.job)
      && StateName(reply.job.state) == r.state && SameTask(was, reply.job)
      && UpdateAnswers(was, r, reply.job) && UpdateMarks(was, r, at, reply.job)
    ensures var reply := ReplyTo(b, Update(r, at));
      reply.outcome == if r.state == "done" || r.state == "failed"
                       then Some(JobOutcome(r.job, reply.job.state, reply.job.result)) else None
    ensures var (reply, after) := (ReplyTo(b, Update(r, at)), Next(b, Update(r, at)));
      && |after.peers| == |b.peers|
      && forall i | 0 <= i < |b.peers| :: after.peers[i] ==
           if b.peers[i].name == r.from then b.peers[i].(state := r.state, job := r.job) else b.peers[i]
  {
    var was := Lookup(b.jobs, r.job).value;
    LookupIs(b.jobs, r.job);
    UpdateChanges(was, r, at);
    WordsDiffer();
    UpdateCloses(ReplyTo(b, Update(r, at)).job, r.state);
    hide Changed, UpdateAnswers, UpdateMarks, StateName, IsWord, Inv;
    ReplaceIs(b.jobs, ReplyTo(b, Update(r, at)).job, r.job);
  }

  lemma UpdateCloses(j: Job, word: string)
    requires StateName(j.state) == word && IsWord(word)
    ensures Closed(j) <==> word == "done" || word == "failed"
  {
    WordsDiffer();
  }

  /** A person's answer, question and recall: what each is accepted on and leaves. */
  lemma PersonSays(b: View, id: string, text: string, at: int)
    ensures var (found, reply) := (Lookup(b.jobs, id), ReplyTo(b, Answer(id, text, at)));
      && (found == None ==> reply == NotFound)
      && (found.Some? ==> (reply.Accepted? <==> StateName(found.value.state) == "blocked"))
      && (reply.Accepted? ==> reply == Accepted(found.value.(state := Working, note := text, question := None, updatedAt := at), None))
    ensures var (found, reply) := (Lookup(b.jobs, id), ReplyTo(b, Chase(id, text, at)));
      && (found == None ==> reply == NotFound)
      && (found.Some? ==> (reply.Accepted? <==> !Closed(found.value)))
      && (reply.Accepted? ==> && StateName(reply.job.state) == StateName(found.value.state) && reply.job.note == text
                              && reply.job.chases == found.value.chases + 1 && reply.job.question == None && reply.job.updatedAt == at
                              && SameTask(found.value, reply.job) && reply.job.result == found.value.result
                              && reply.job.dueAt == found.value.dueAt && reply.job.declines == found.value.declines
                              && reply.job.declinedBy == found.value.declinedBy && reply.outcome == None)
    ensures var (found, reply) := (Lookup(b.jobs, id), ReplyTo(b, Cancel(id, text, at)));
      && (found == None ==> reply == NotFound)
      && (found.Some? ==> (reply.Accepted? <==> !Closed(found.value)))
      && (reply.Accepted? ==> && StateName(reply.job.state) == "cancelled" && reply.job.note == text && reply.job.question == None
                              && reply.job.updatedAt == at && SameTask(found.value, reply.job) && reply.job.result == found.value.result
                              && reply.job.dueAt == found.value.dueAt && reply.job.declines == found.value.declines
                              && reply.job.declinedBy == found.value.declinedBy && reply.job.chases == found.value.chases
                              && reply.outcome == Some(JobOutcome(reply.job.id, reply.job.state, None)))
  {
    WordsDiffer();
    if Lookup(b.jobs, id).Some? { BlockedByName(Lookup(b.jobs, id).value.state); }
    hide StateName, Lookup;
    assert StateName(Cancelled) == "cancelled" by { NameOfCancelled(); }
  }

  lemma BlockedByName(s: JobState)
    ensures s.Blocked? <==> StateName(s) == "blocked"
  {
    WordsDiffer();
    assert |"cancelled"| == 9 && |"blocked"| == 7;
  }

  lemma NameOfCancelled()
    ensures StateName(Cancelled) == "cancelled"
  {}

  /** A job is posted open, as asked, and due so many units after it was. */
  lemma PostSays(b: View, r: JobRequest, id: string, at: int)
    requires ReplyTo(b, Post(r, id, at)).Accepted?
    ensures var j := ReplyTo(b, Post(r, id, at)).job;
      && j.id == id && j.from == r.from && j.to == r.to && j.intent == r.intent && r.to != "" && r.intent != ""
      && StateName(j.state) == "open" && j.createdAt == at && j.updatedAt == at
      && j.result == None && j.question == None && j.note == "" && j.declinedBy == None && j.declines == 0 && j.chases == 0
      && (r.due == None ==> j.dueAt == None)
    ensures ReplyTo(b, Post(r, id, at)).outcome == None
  {
    hide Duration, OpenCount;
  }

  lemma PostDue(b: View, r: JobRequest, id: string, at: int, count: nat, unit: string)
    requires unit in {"s", "m", "h", "d"} && r.due == Some(Decimal(count) + unit)
    requires r.to != "" && r.intent != "" && OpenCount(b.jobs) < 32
    ensures ReplyTo(b, Post(r, id, at)).Accepted? <==> 0 < count <= MAX_COUNT
    ensures var reply := ReplyTo(b, Post(r, id, at));
      reply.Accepted? ==> reply.job.dueAt == Some(at + count *
        (if unit == "s" then 1 else if unit == "m" then 60 else if unit == "h" then 60 * 60 else 24 * 60 * 60))
  {
    DurationReadBack(count, unit);
    hide Duration, OpenCount;
  }

  /** A job is accepted exactly with a peer to do it, something to do, fewer than 32 unfinished, and a due time that is one. */
  lemma PostAcceptedIff(b: View, r: JobRequest, id: string, at: int)
    ensures ReplyTo(b, Post(r, id, at)).Accepted? <==>
      r.to != "" && r.intent != "" && OpenCount(b.jobs) < 32 && (r.due == None || Duration(r.due.value).Some?)
    ensures !ReplyTo(b, Post(r, id, at)).Accepted? ==> Next(b, Post(r, id, at)) == b
  {
    hide Duration, OpenCount, Kept;
  }

  /** A peer seen is the one presence that may change. */
  lemma {:induction false} TouchKeeps(peers: seq<Presence>, peer: string, state: string, at: int)
    ensures var after := Touched(peers, peer, state, at);
      && |peers| <= |after| <= |peers| + 1
      && forall i | 0 <= i < |peers| :: peers[i].name != peer ==> after[i] == peers[i]
  {
    if peers != [] && peers[0].name != peer { TouchKeeps(peers[1..], peer, state, at); }
  }

  /** It is seen now: the first presence of its name, or a new one behind the others. */
  lemma {:induction false} TouchSays(peers: seq<Presence>, peer: string, state: string, at: int, i: nat)
    requires i <= |peers| && forall k | 0 <= k < i :: peers[k].name != peer
    requires i < |peers| ==> peers[i].name == peer
    ensures var after := Touched(peers, peer, state, at);
      if i == |peers| then after == peers + [Presence(peer, at, state, "")]
      else after == peers[i := peers[i].(lastSeen := at, state := if state == "" then peers[i].state else state)]
  {
    if i > 0 { TouchSays(peers[1..], peer, state, at, i - 1); }
  }

  /** The last record of an accepted verb: when, what was said, by whom, of which job. */
  lemma RecordSays(b: View, v: Verb)
    requires !v.Touch? && ReplyTo(b, v).Accepted?
    ensures Next(b, v).audit != [] && var e := Next(b, v).audit[|Next(b, v).audit| - 1];
      match v
      case Post(r, id, at) => e == AuditEntry(at, "post", r.from, id, r.intent)
      case Update(r, at) => e == AuditEntry(at, r.state, r.from, r.job, r.note)
      case Answer(id, text, at) => e == AuditEntry(at, "answer", "", id, text)
      case Chase(id, text, at) => e == AuditEntry(at, "chase", "", id, text)
      case Cancel(id, text, at) => e == AuditEntry(at, "drop", "", id, text)
  {
    if v.Update? { UpdateNamesState(Lookup(b.jobs, About(v)).value, v); }
    hide ReplyTo, Kept, Replace, SeenPeers;
  }
}
