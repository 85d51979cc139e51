/**
  What the job board keeps over every run of its verbs (src/serve/board.cpp).
*/
module BoardRuns {
  import opened Sequences
  import opened Wrappers
  import opened BoardSpec

  // ---------------------------------------------------------------- lists of jobs

  function Ids(jobs: seq<Job>): set<string> { set j | j in jobs :: j.id }

  /** No id comes twice. */
  predicate Unique(jobs: seq<Job>) {
    jobs == [] || (jobs[0].id !in Ids(jobs[1..]) && Unique(jobs[1..]))
  }

  lemma IdsCons(j: Job, jobs: seq<Job>)
    ensures Ids([j] + jobs) == {j.id} + Ids(jobs) && ([j] + jobs)[1..] == jobs
  {
    assert forall k :: k in [j] + jobs <==> k == j || k in jobs;
  }

  lemma {:induction false} LookupIs(jobs: seq<Job>, id: string)
    ensures Lookup(jobs, id).Some? <==> id in Ids(jobs)
    ensures Lookup(jobs, id).Some? ==> Lookup(jobs, id).value in jobs && Lookup(jobs, id).value.id == id
  {
    if jobs != [] {
      LookupIs(jobs[1..], id);
      IdsCons(jobs[0], jobs[1..]);
      assert [jobs[0]] + jobs[1..] == jobs;
    }
  }

  /** A list of jobs, all of which something holds of. */
  predicate Every(jobs: seq<Job>) { forall i | 0 <= i < |jobs| :: JobInv(jobs[i]) }

  /**
    A result exists only on a job that ended done or failed, and always on one that failed; a question only on
    one that is blocked, done or failed; a decline is by the peer the job is for.
  */
  predicate JobInv(j: Job) {
    && (j.result.Some? ==> j.state.Done? || j.state.Failed?)
    && (j.state.Failed? ==> j.result.Some?)
    && (j.question.Some? ==> j.state.Blocked? || j.state.Done? || j.state.Failed?)
    && (j.declinedBy.Some? ==> j.declinedBy == Some(j.to))
    && j.to != ""
  }

  lemma ChangeKeepsJob(j: Job, v: Verb)
    requires JobInv(j) && !v.Post? && !v.Touch? && Changed(j, v).Some?
    ensures JobInv(Changed(j, v).value) && Changed(j, v).value.id == j.id && Changed(j, v).value.to == j.to && !Closed(j)
  {
    if v.Update? { UpdateKeepsJob(j, v); }
    hide Updated;
  }

  lemma UpdateKeepsJob(j: Job, v: Verb)
    requires JobInv(j) && v.Update? && Changed(j, v).Some?
    ensures JobInv(Changed(j, v).value) && Changed(j, v).value.id == j.id && Changed(j, v).value.to == j.to
  {
    hide ParseState;
  }

  lemma {:induction false} ReplaceIs(jobs: seq<Job>, j: Job, id: string)
    requires j.id in Ids(jobs)
    ensures var after := Replace(jobs, j);
      && |after| == |jobs| && Ids(after) == Ids(jobs)
      && (Unique(jobs) ==> Unique(after))
      && Lookup(after, id) == (if id == j.id then Some(j) else Lookup(jobs, id))
  {
    var rest := jobs[1..];
    assert [jobs[0]] + rest == jobs;
    IdsCons(jobs[0], rest);
    if jobs[0].id == j.id {
      IdsCons(j, rest);
    } else {
      ReplaceIs(rest, j, id);
      hide Ids;
      IdsCons(jobs[0], Replace(rest, j));
    }
  }

  lemma {:induction false} ReplaceKeepsEvery(jobs: seq<Job>, j: Job)
    requires Every(jobs) && JobInv(j)
    ensures Every(Replace(jobs, j))
  {
    hide JobInv;
    if jobs != [] {
      var rest := jobs[1..];
      assert Every(rest) by { forall i | 0 <= i < |rest| ensures JobInv(rest[i]) { assert JobInv(jobs[i + 1]); } }
      ReplaceKeepsEvery(rest, j);
      assert JobInv(jobs[0]);
    }
  }

  lemma {:induction false} ReplaceKeepsCount(jobs: seq<Job>, j: Job, was: Job)
    requires Lookup(jobs, j.id) == Some(was) && !Closed(was)
    ensures OpenCount(Replace(jobs, j)) <= OpenCount(jobs)
  {
    if jobs[0].id == j.id {
      assert ([j] + jobs[1..])[1..] == jobs[1..];
    } else {
      ReplaceKeepsCount(jobs[1..], j, was);
      assert ([jobs[0]] + Replace(jobs[1..], j))[1..] == Replace(jobs[1..], j);
    }
  }

  lemma ConsIs(j: Job, jobs: seq<Job>, all: seq<Job>)
    requires all == [j] + jobs
    ensures |all| == |jobs| + 1 && all[0] == j && all[1..] == jobs
    ensures Ids(all) == {j.id} + Ids(jobs)
    ensures OpenCount(all) == OpenCount(jobs) + (if Closed(j) then 0 else 1)
    ensures multiset(all) == multiset(jobs) + multiset{j}
  {
    IdsCons(j, jobs);
    hide Ids;
  }

  lemma {:induction false} InsertAdds(j: Job, jobs: seq<Job>)
    ensures var after := Insert(j, jobs);
      && |after| == |jobs| + 1 && Ids(after) == Ids(jobs) + {j.id}
      && OpenCount(after) == OpenCount(jobs) + (if Closed(j) then 0 else 1)
      && multiset(after) == multiset(jobs) + multiset{j}
  {
    hide Ids, OpenCount;
    if jobs == [] || j.updatedAt <= jobs[0].updatedAt {
      ConsIs(j, jobs, Insert(j, jobs));
    } else {
      var rest := jobs[1..];
      ConsIs(jobs[0], rest, jobs);
      InsertAdds(j, rest);
      ConsIs(jobs[0], Insert(j, rest), Insert(j, jobs));
    }
  }

  lemma {:induction false} InsertIs(j: Job, jobs: seq<Job>, id: string)
    requires j.id !in Ids(jobs)
    ensures var after := Insert(j, jobs);
      && (Unique(jobs) ==> Unique(after)) && Lookup(after, id) == if id == j.id then Some(j) else Lookup(jobs, id)
  {
    if jobs == [] || j.updatedAt <= jobs[0].updatedAt {
      IdsCons(j, jobs);
    } else {
      var rest := jobs[1..];
      assert [jobs[0]] + rest == jobs;
      IdsCons(jobs[0], rest);
      InsertAdds(j, rest);
      InsertIs(j, rest, id);
      IdsCons(jobs[0], Insert(j, rest));
    }
  }

  lemma {:induction false} SortedIs(jobs: seq<Job>, id: string)
    ensures var after := Sorted(jobs);
      && |after| == |jobs| && Ids(after) == Ids(jobs)
      && (Unique(jobs) ==> Unique(after) && Lookup(after, id) == Lookup(jobs, id))
      && OpenCount(after) == OpenCount(jobs)
      && multiset(after) == multiset(jobs)
  {
    if jobs != [] {
      var rest := jobs[1..];
      assert [jobs[0]] + rest == jobs;
      IdsCons(jobs[0], rest);
      SortedIs(rest, id);
      hide Insert, Sorted;
      SortedUnfolds(jobs);
      InsertAdds(jobs[0], Sorted(rest));
      if jobs[0].id !in Ids(rest) { InsertIs(jobs[0], Sorted(rest), id); }
      assert multiset(jobs) == multiset{jobs[0]} + multiset(rest);
    }
  }

  lemma SortedUnfolds(jobs: seq<Job>)
    requires jobs != []
    ensures Sorted(jobs) == Insert(jobs[0], Sorted(jobs[1..]))
  {}

  predicate ByUpdate(jobs: seq<Job>) { forall i, k | 0 <= i < k < |jobs| :: jobs[i].updatedAt <= jobs[k].updatedAt }

  lemma {:induction false} InsertSorts(j: Job, jobs: seq<Job>)
    requires ByUpdate(jobs)
    ensures ByUpdate(Insert(j, jobs))
    ensures Insert(j, jobs)[0] == (if jobs == [] || j.updatedAt <= jobs[0].updatedAt then j else jobs[0])
  {
    if jobs != [] && j.updatedAt > jobs[0].updatedAt {
      var rest := jobs[1..];
      InsertSorts(j, rest);
      var after := Insert(j, rest);
      assert Insert(j, jobs) == [jobs[0]] + after;
      forall k | 0 <= k < |after| ensures jobs[0].updatedAt <= after[k].updatedAt {
        assert after[0].updatedAt <= after[k].updatedAt;
      }
    }
  }

  lemma {:induction false} SortedSorts(jobs: seq<Job>)
    ensures ByUpdate(Sorted(jobs))
  {
    if jobs != [] {
      SortedSorts(jobs[1..]);
      InsertSorts(jobs[0], Sorted(jobs[1..]));
    }
  }

  /** Those of one update time, in their order. */
  function Of(jobs: seq<Job>, at: int): seq<Job> {
    if jobs == [] then [] else (if jobs[0].updatedAt == at then [jobs[0]] else []) + Of(jobs[1..], at)
  }

  lemma {:induction false} NoneBefore(jobs: seq<Job>, at: int)
    requires ByUpdate(jobs) && (jobs != [] ==> jobs[0].updatedAt > at)
    ensures Of(jobs, at) == []
  {
    if jobs != [] { NoneBefore(jobs[1..], at); }
  }

  lemma OfCons(j: Job, jobs: seq<Job>, at: int)
    ensures Of([j] + jobs, at) == (if j.updatedAt == at then [j] else []) + Of(jobs, at)
  {
    assert ([j] + jobs)[1..] == jobs;
  }

  lemma {:induction false} InsertIsStable(j: Job, jobs: seq<Job>, at: int)
    requires ByUpdate(jobs)
    ensures Of(Insert(j, jobs), at) == (if j.updatedAt == at then [j] else []) + Of(jobs, at)
  {
    hide Of;
    if jobs == [] || j.updatedAt <= jobs[0].updatedAt {
      OfCons(j, jobs, at);
    } else {
      var rest := jobs[1..];
      InsertIsStable(j, rest, at);
      assert [jobs[0]] + rest == jobs;
      OfCons(jobs[0], rest, at);
      OfCons(jobs[0], Insert(j, rest), at);
    }
  }

  /** The sort keeps jobs of the same update time in their order. */
  lemma {:induction false} SortedIsStable(jobs: seq<Job>, at: int)
    ensures Of(Sorted(jobs), at) == Of(jobs, at)
  {
    if jobs != [] {
      SortedIsStable(jobs[1..], at);
      SortedSorts(jobs[1..]);
      InsertIsStable(jobs[0], Sorted(jobs[1..]), at);
    }
  }

  /** The job let go is the one longest without an update; of those as old, the one that came first. */
  lemma EvictedIsOldest(jobs: seq<Job>, k: nat)
    requires jobs != [] && k < |jobs|
    ensures Sorted(jobs) != [] && Sorted(jobs)[0].updatedAt <= jobs[k].updatedAt
    ensures Of(jobs, Sorted(jobs)[0].updatedAt) != [] && Sorted(jobs)[0] == Of(jobs, Sorted(jobs)[0].updatedAt)[0]
  {
    var sorted := Sorted(jobs);
    SortedIs(jobs, "");
    SortedSorts(jobs);
    assert jobs[k] in multiset(sorted);
    var i :| 0 <= i < |sorted| && sorted[i] == jobs[k];
    SortedIsStable(jobs, sorted[0].updatedAt);
  }

  lemma {:induction false} OfAppend(jobs: seq<Job>, j: Job, at: int)
    ensures Of(jobs + [j], at) == Of(jobs, at) + (if j.updatedAt == at then [j] else [])
  {
    if jobs == [] {
      assert jobs + [j] == [j] + [];
      OfCons(j, [], at);
    } else {
      var rest := jobs[1..];
      assert jobs + [j] == [jobs[0]] + (rest + [j]) && [jobs[0]] + rest == jobs;
      OfCons(jobs[0], rest + [j], at);
      OfCons(jobs[0], rest, at);
      OfAppend(rest, j, at);
    }
  }

  lemma {:induction false} OfAreIn(jobs: seq<Job>, at: int)
    ensures forall j | j in Of(jobs, at) :: j in jobs && j.updatedAt == at
    ensures forall j | j in jobs && j.updatedAt == at :: j in Of(jobs, at)
  {
    if jobs != [] { OfAreIn(jobs[1..], at); }
  }

  /** A job just added comes first in the sort exactly when every other job is stamped later. */
  lemma NewestIsFirst(jobs: seq<Job>, j: Job)
    requires j.id !in Ids(jobs)
    ensures Sorted(jobs + [j]) != [] && (Sorted(jobs + [j])[0].id == j.id <==> forall k | k in jobs :: k.updatedAt > j.updatedAt)
  {
    var all := jobs + [j];
    assert all[|jobs|] == j;
    EvictedIsOldest(all, |jobs|);
    var first := Sorted(all)[0];
    OfAppend(jobs, j, first.updatedAt);
    OfAreIn(jobs, first.updatedAt);
    hide Sorted, Of, Ids;
    if first.id == j.id {
      FirstIsTheNewest(jobs, j, first);
      forall k | k in jobs ensures k.updatedAt > j.updatedAt {
        var i :| 0 <= i < |jobs| && jobs[i] == k;
        assert all[i] == k;
        EvictedIsOldest(all, i);
      }
    } else {
      FirstIsAnother(jobs, j, first);
    }
  }

  lemma FirstIsTheNewest(jobs: seq<Job>, j: Job, first: Job)
    requires j.id !in Ids(jobs) && first.id == j.id
    requires Of(jobs + [j], first.updatedAt) != [] && first == Of(jobs + [j], first.updatedAt)[0]
    ensures first == j && Of(jobs, first.updatedAt) == []
  {
    OfAppend(jobs, j, first.updatedAt);
    OfAreIn(jobs, first.updatedAt);
  }

  lemma FirstIsAnother(jobs: seq<Job>, j: Job, first: Job)
    requires first.id != j.id && first.updatedAt <= j.updatedAt
    requires Of(jobs + [j], first.updatedAt) != [] && first == Of(jobs + [j], first.updatedAt)[0]
    ensures first in jobs
  {
    OfAppend(jobs, j, first.updatedAt);
    OfAreIn(jobs, first.updatedAt);
  }

  // ---------------------------------------------------------------- the invariant

  /** At most 32 jobs unfinished, 160 kept and 64 records; no id twice; every job well. */
  ghost predicate Inv(b: View) {
    && OpenCount(b.jobs) <= MAX_OPEN
    && |b.jobs| <= MAX_OPEN + MAX_CLOSED_KEPT
    && |b.audit| <= MAX_AUDIT
    && Unique(b.jobs) && Every(b.jobs)
  }

  /** A posted id is one no job on the board has. */
  predicate Fresh(b: View, v: Verb) { v.Post? ==> v.id !in Ids(b.jobs) }

  lemma {:induction false} AppendIs(jobs: seq<Job>, j: Job, id: string)
    requires j.id !in Ids(jobs)
    ensures var after := jobs + [j];
      && Ids(after) == Ids(jobs) + {j.id} && (Unique(jobs) ==> Unique(after))
      && Lookup(after, id) == (if id == j.id then Some(j) else Lookup(jobs, id))
      && OpenCount(after) == OpenCount(jobs) + (if Closed(j) then 0 else 1)
  {
    if jobs == [] {
      assert jobs + [j] == [j] + [];
      IdsCons(j, []);
    } else {
      var rest := jobs[1..];
      assert [jobs[0]] + rest == jobs && (jobs + [j])[1..] == rest + [j] && jobs + [j] == [jobs[0]] + (rest + [j]);
      IdsCons(jobs[0], rest);
      IdsCons(jobs[0], rest + [j]);
      AppendIs(rest, j, id);
    }
  }

  lemma DropIs(jobs: seq<Job>, id: string)
    requires Unique(jobs) && jobs != []
    ensures Unique(Drop(jobs)) && OpenCount(Drop(jobs)) <= OpenCount(jobs) && Ids(Drop(jobs)) <= Ids(jobs)
    ensures Lookup(Drop(jobs), id) == if id == jobs[0].id then None else Lookup(jobs, id)
  {
    LookupIs(jobs[1..], id);
  }

  lemma KeptIs(jobs: seq<Job>, id: string)
    requires Unique(jobs) && Every(jobs)
    ensures var kept := Kept(jobs);
      && Unique(kept) && Every(kept) && OpenCount(kept) <= OpenCount(jobs)
      && |kept| == (if |jobs| > MAX_OPEN + MAX_CLOSED_KEPT then |jobs| - 1 else |jobs|)
      && (Lookup(kept, id) == Lookup(jobs, id) || (Lookup(kept, id) == None && |jobs| > MAX_OPEN + MAX_CLOSED_KEPT))
  {
    if |jobs| > MAX_OPEN + MAX_CLOSED_KEPT {
      var sorted := Sorted(jobs);
      SortedIs(jobs, id);
      DropIs(sorted, id);
      hide JobInv, Sorted;
      forall i | 0 <= i < |Drop(sorted)| ensures JobInv(Drop(sorted)[i]) {
        assert sorted[i + 1] in multiset(jobs);
        var k :| 0 <= k < |jobs| && jobs[k] == sorted[i + 1];
      }
    }
  }

  lemma PostKeepsInv(b: View, v: Verb)
    requires Inv(b) && Fresh(b, v) && v.Post? && MayPost(b, v.request)
    ensures Inv(Next(b, v))
  {
    NewJobIs(v.request, v.id, v.now);
    hide JobInv, Kept, NewJob, Duration, OpenCount, Unique, Ids;
    var j := NewJob(v.request, v.id, v.now);
    AppendIs(b.jobs, j, "");
    KeptIs(b.jobs + [j], "");
  }

  lemma NewJobIs(r: JobRequest, id: string, now: int)
    requires r.to != ""
    ensures var j := NewJob(r, id, now); JobInv(j) && !Closed(j) && j.id == id && j.updatedAt == now
  {
    hide Duration;
  }

  lemma ChangeKeepsInv(b: View, v: Verb)
    requires Inv(b) && !v.Post? && !v.Touch? && ReplyTo(b, v).Accepted?
    ensures Inv(Next(b, v))
  {
    var was := Lookup(b.jobs, About(v)).value;
    LookupIs(b.jobs, About(v));
    EveryOne(b.jobs, was);
    ChangeKeepsJob(was, v);
    var j := ReplyTo(b, v).job;
    hide JobInv, Changed;
    ReplaceIs(b.jobs, j, "");
    ReplaceKeepsEvery(b.jobs, j);
    ReplaceKeepsCount(b.jobs, j, was);
  }

  lemma EveryOne(jobs: seq<Job>, j: Job)
    requires Every(jobs) && j in jobs
    ensures JobInv(j)
  {}

  lemma StepKeepsInv(b: View, v: Verb)
    requires Inv(b) && Fresh(b, v)
    ensures Inv(Next(b, v))
  {
    if ReplyTo(b, v).Accepted? {
      if v.Post? { PostKeepsInv(b, v); } else { ChangeKeepsInv(b, v); }
    }
  }

  // ---------------------------------------------------------------- runs

  ghost predicate IsRun(b: View, vs: seq<Verb>)
    decreases |vs|
  {
    vs == [] || (Fresh(b, vs[0]) && IsRun(Next(b, vs[0]), vs[1..]))
  }

  function After(b: View, vs: seq<Verb>): View
    decreases |vs|
  {
    if vs == [] then b else After(Next(b, vs[0]), vs[1..])
  }

  lemma EmptyHolds()
    ensures Inv(EMPTY)
  {}

  /** The bounds and what is true of each job hold after any run. */
  lemma {:induction false} RunKeepsInv(b: View, vs: seq<Verb>)
    requires Inv(b) && IsRun(b, vs)
    ensures Inv(After(b, vs))
    decreases |vs|
  {
    hide Inv, Next, Fresh;
    if vs != [] {
      StepKeepsInv(b, vs[0]);
      RunKeepsInv(Next(b, vs[0]), vs[1..]);
    }
  }

  /** A board begun empty keeps its bounds, and every job of it is well, whatever is asked of it. */
  lemma BoardFromEmpty(vs: seq<Verb>)
    requires IsRun(EMPTY, vs)
    ensures var b := After(EMPTY, vs);
      && OpenCount(b.jobs) <= 32 && |b.jobs| <= 160 && |b.audit| <= 64
      && Unique(b.jobs) && forall i | 0 <= i < |b.jobs| :: JobInv(b.jobs[i])
  {
    EmptyHolds();
    RunKeepsInv(EMPTY, vs);
  }

  /** What becomes of one job in a step: nothing, the change of an accepted verb about it, or eviction. */
  lemma JobAfter(b: View, v: Verb, id: string)
    requires Inv(b) && Fresh(b, v) && !(v.Post? && v.id == id)
    ensures var (was, now) := (Lookup(b.jobs, id), Lookup(Next(b, v).jobs, id));
      || now == was
      || (v.Post? && now == None)
      || (!v.Post? && !v.Touch? && About(v) == id && was.Some? && now == Changed(was.value, v) && now.Some?)
  {
    if ReplyTo(b, v).Accepted? {
      if v.Post? {
        var j := NewJob(v.request, v.id, v.now);
        AppendIs(b.jobs, j, id);
        assert JobInv(j);
        KeptIs(b.jobs + [j], id);
        hide JobInv, Kept, NewJob, MayPost;
      } else {
        var was := Lookup(b.jobs, About(v)).value;
        LookupIs(b.jobs, About(v));
        EveryOne(b.jobs, was);
        ChangeKeepsJob(was, v);
        hide JobInv, Changed;
        ReplaceIs(b.jobs, ReplyTo(b, v).job, id);
      }
    }
  }

  /**
    A job just posted is on the board exactly when the board was not full, or some job on it is not stamped
    later: with a clock that stepped back, the new job can be the one let go.
  */
  lemma PostedIsKept(b: View, v: Verb)
    requires Inv(b) && Fresh(b, v) && v.Post? && ReplyTo(b, v).Accepted?
    ensures Lookup(Next(b, v).jobs, v.id) == Some(ReplyTo(b, v).job) || Lookup(Next(b, v).jobs, v.id) == None
    ensures Lookup(Next(b, v).jobs, v.id).Some? <==>
      |b.jobs| < 160 || exists k | k in b.jobs :: k.updatedAt <= v.now
  {
    NewJobIs(v.request, v.id, v.now);
    hide JobInv, NewJob, Duration, OpenCount, Unique, Ids, Sorted;
    var j := NewJob(v.request, v.id, v.now);
    AppendIs(b.jobs, j, v.id);
    if |b.jobs| == MAX_OPEN + MAX_CLOSED_KEPT {
      var all := b.jobs + [j];
      SortedIs(all, v.id);
      DropIs(Sorted(all), v.id);
      NewestIsFirst(b.jobs, j);
    }
  }

  predicate NeverPosts(vs: seq<Verb>, id: string) { forall i | 0 <= i < |vs| && vs[i].Post? :: vs[i].id != id }

  /** A closed job never changes again: as long as it is on the board it is as it closed. */
  lemma {:induction false} ClosedForGood(b: View, vs: seq<Verb>, id: string)
    requires Inv(b) && IsRun(b, vs) && NeverPosts(vs, id)
    requires Lookup(b.jobs, id) == None || Closed(Lookup(b.jobs, id).value)
    ensures Lookup(After(b, vs).jobs, id) == Lookup(b.jobs, id) || Lookup(After(b, vs).jobs, id) == None
    decreases |vs|
  {
    if vs != [] {
      hide Inv, Next, Fresh;
      StepKeepsInv(b, vs[0]);
      JobAfter(b, vs[0], id);
      ClosedForGood(Next(b, vs[0]), vs[1..], id);
    }
  }

  predicate StartOf(v: Verb, id: string) { v.Update? && v.request.job == id && Starts(v.request.state) }

  predicate DeclineOf(v: Verb, id: string) { v.Update? && v.request.job == id && Declines(v.request.state) }

  /** An accepted decline leaves the job declined by the peer it is for. */
  lemma DeclineMarks(b: View, v: Verb, id: string)
    requires Inv(b) && DeclineOf(v, id) && ReplyTo(b, v).Accepted?
    ensures var j := Lookup(Next(b, v).jobs, id); j.Some? && j.value.declinedBy == Some(j.value.to)
    ensures Lookup(b.jobs, id).Some? && Lookup(b.jobs, id).value.declinedBy == None
  {
    var was := Lookup(b.jobs, id).value;
    LookupIs(b.jobs, id);
    EveryOne(b.jobs, was);
    ChangeKeepsJob(was, v);
    StateReadBack(Open);
    DeclinedBy(was, v);
    hide Changed, JobInv;
    ReplaceIs(b.jobs, ReplyTo(b, v).job, id);
  }

  lemma DeclinedBy(j: Job, v: Verb)
    requires JobInv(j) && v.Update? && Declines(v.request.state) && Changed(j, v).Some?
    ensures Changed(j, v).value.declinedBy == Some(j.to) && j.declinedBy == None
  {
    StateReadBack(Open);
    hide ParseState;
  }

  /**
    Two declines of one job have a claimed or working update between them: with neither in a run, a declined
    job is still declined after it, and its next decline is refused.
  */
  lemma {:induction false} DeclinesAreApart(b: View, vs: seq<Verb>, id: string, v: Verb)
    requires Inv(b) && IsRun(b, vs) && NeverPosts(vs, id) && forall i | 0 <= i < |vs| :: !StartOf(vs[i], id)
    requires Lookup(b.jobs, id).Some? ==> Lookup(b.jobs, id).value.declinedBy == Some(Lookup(b.jobs, id).value.to)
    requires DeclineOf(v, id)
    ensures !ReplyTo(After(b, vs), v).Accepted?
    decreases |vs|
  {
    if vs == [] {
      DeclineRefused(b, v, id);
    } else {
      assert !StartOf(vs[0], id);
      DeclineStays(b, vs[0], id);
      StepKeepsInv(b, vs[0]);
      hide Inv, Next, Fresh, StartOf, DeclineOf, ReplyTo;
      DeclinesAreApart(Next(b, vs[0]), vs[1..], id, v);
    }
  }

  lemma DeclineRefused(b: View, v: Verb, id: string)
    requires DeclineOf(v, id)
    requires Lookup(b.jobs, id).Some? ==> Lookup(b.jobs, id).value.declinedBy == Some(Lookup(b.jobs, id).value.to)
    ensures !ReplyTo(b, v).Accepted?
  {}

  lemma DeclineStays(b: View, v: Verb, id: string)
    requires Inv(b) && Fresh(b, v) && !(v.Post? && v.id == id) && !StartOf(v, id)
    requires Lookup(b.jobs, id).Some? ==> Lookup(b.jobs, id).value.declinedBy == Some(Lookup(b.jobs, id).value.to)
    ensures var j := Lookup(Next(b, v).jobs, id); j.Some? ==> j.value.declinedBy == Some(j.value.to)
  {
    JobAfter(b, v, id);
    hide Next, Inv;
    if !v.Post? && !v.Touch? && About(v) == id && Lookup(b.jobs, id).Some? && Changed(Lookup(b.jobs, id).value, v).Some? {
      ChangeKeepsDecline(Lookup(b.jobs, id).value, v);
    }
  }

  lemma ChangeKeepsDecline(j: Job, v: Verb)
    requires !v.Post? && !v.Touch? && Changed(j, v).Some? && j.declinedBy == Some(j.to) && !(v.Update? && Starts(v.request.state))
    ensures Changed(j, v).value.declinedBy == Some(j.to) && Changed(j, v).value.to == j.to
  {}

  // ---------------------------------------------------------------- the audit

  /** Every record a run ever made. */
  function Records(b: View, vs: seq<Verb>): seq<AuditEntry>
    decreases |vs|
  {
    if vs == [] then []
    else (if ReplyTo(b, vs[0]).Accepted? then [EntryOf(vs[0])] else []) + Records(Next(b, vs[0]), vs[1..])
  }

  lemma LastOfLast(a: seq<AuditEntry>, b: seq<AuditEntry>)
    ensures Last(Last(a) + b) == Last(a + b)
  {}

  /** The audit is the last 64 of all records ever made, those of accepted verbs. */
  lemma {:induction false} AuditIsTheLast(b: View, vs: seq<Verb>)
    requires |b.audit| <= 64
    ensures var all := b.audit + Records(b, vs); After(b, vs).audit == if |all| > 64 then all[|all| - 64..] else all
    decreases |vs|
  {
    if vs == [] {
      assert b.audit + [] == b.audit;
    } else {
      var (next, made) := (Next(b, vs[0]), if ReplyTo(b, vs[0]).Accepted? then [EntryOf(vs[0])] else []);
      assert b.audit + [] == b.audit;
      assert next.audit == Last(b.audit + made) by { hide ReplyTo, EntryOf, Kept, Replace; }
      hide ReplyTo, EntryOf, Kept, Replace, Next;
      AuditIsTheLast(next, vs[1..]);
      LastOfLast(b.audit + made, Records(next, vs[1..]));
      SeqAssoc(b.audit, made, Records(next, vs[1..]));
    }
  }

  /** A state without a name is none, so an update that only leaves a note is always refused. */
  lemma NoteAloneIsRefused(b: View, v: Verb)
    requires v.Update? && v.request.state == ""
    ensures !ReplyTo(b, v).Accepted?
  {}

  /** The kinds the audit knows: an accepted update is recorded under the state it named. */
  lemma KindRecorded(b: View, v: Verb)
    requires ReplyTo(b, v).Accepted?
    ensures EntryOf(v).kind in {"post", "answer", "chase", "drop", "open", "claimed", "working", "blocked", "done", "failed"}
  {
    if v.Update? {
      UpdateNamesState(Lookup(b.jobs, About(v)).value, v);
      hide ParseState;
    }
  }

  lemma UpdateNamesState(j: Job, v: Verb)
    requires v.Update? && Changed(j, v).Some?
    ensures ParseState(v.request.state).Some? && v.request.state != ""
    ensures v.request.state in {"open", "claimed", "working", "blocked", "done", "failed"}
  {}

  lemma NotANote()
    ensures "note" !in {"post", "answer", "chase", "drop", "open", "claimed", "working", "blocked", "done", "failed"}
  {
    assert "note"[0] == 'n';
    assert "post"[0] != 'n' && "answer"[0] != 'n' && "chase"[0] != 'n' && "drop"[0] != 'n' && "open"[0] != 'n';
    assert "claimed"[0] != 'n' && "working"[0] != 'n' && "blocked"[0] != 'n' && "done"[0] != 'n' && "failed"[0] != 'n';
  }

  /** No record of any run is of the kind `note`. */
  lemma {:induction false} NoNoteIsRecorded(b: View, vs: seq<Verb>)
    ensures forall e | e in Records(b, vs) :: e.kind != "note"
    decreases |vs|
  {
    if vs != [] {
      NotANote();
      if ReplyTo(b, vs[0]).Accepted? { KindRecorded(b, vs[0]); }
      hide ReplyTo, EntryOf, Next;
      NoNoteIsRecorded(Next(b, vs[0]), vs[1..]);
    }
  }

  /** A decline is marked on the job before the move it asks for, which is then never refused. */
  lemma MoveToOpenIsNeverRefused(j: Job, u: JobUpdate, now: int)
    requires Declines(u.state)
    ensures Moved(j, u, now).Some?
  {
    StateReadBack(Open);
  }
}
