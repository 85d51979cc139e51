/**
  The store of outputs a session can still page through (src/paging/paging.cpp, `Pager`): two budgets
  evict the oldest, ranks order the runs, ids name the run and the pager.
*/
module Retention {
  import opened Wrappers
  import opened Utf8
  import opened OutputCapture
  import opened Cursors
  import opened Paging

  datatype Budget = Budget(retainBytes: nat, retainBuffers: nat)

  function Bytes(bs: seq<Stored>): nat {
    if bs == [] then 0 else |bs[0].text| + Bytes(bs[1..])
  }

  /** Both budgets hold; the newest output is kept whatever it weighs. */
  predicate Fits(budget: Budget, bs: seq<Stored>) {
    || |bs| <= 1
    || (|bs| <= budget.retainBuffers && Bytes(bs) <= budget.retainBytes)
  }

  predicate IsSuffix<T(==)>(s: seq<T>, t: seq<T>) { |s| <= |t| && s == t[|t| - |s|..] }

  /** What is left when the oldest are dropped until the rest fits. */
  function Evict(budget: Budget, bs: seq<Stored>): seq<Stored> {
    if Fits(budget, bs) then bs else Evict(budget, bs[1..])
  }

  /** Storing one run after another under one budget. */
  function StoreAll(budget: Budget, runs: seq<Stored>): seq<Stored> {
    if runs == [] then [] else Evict(budget, StoreAll(budget, runs[..|runs| - 1]) + [runs[|runs| - 1]])
  }

  /** Eviction keeps the longest suffix that fits. */
  lemma {:induction false} EvictIsLongest(budget: Budget, bs: seq<Stored>, s: seq<Stored>)
    ensures var kept := Evict(budget, bs);
      && IsSuffix(kept, bs) && Fits(budget, kept) && (bs != [] ==> kept != [])
      && (IsSuffix(s, bs) && Fits(budget, s) ==> IsSuffix(s, kept))
  {
    if !Fits(budget, bs) {
      EvictIsLongest(budget, bs[1..], s);
    }
  }

  lemma BytesOfOne(b: Stored)
    ensures Bytes([b]) == |b.text|
  {
    assert [b][1..] == [];
  }

  lemma {:induction false} BytesAppend(a: seq<Stored>, b: seq<Stored>)
    ensures Bytes(a + b) == Bytes(a) + Bytes(b)
  {
    if a == [] { assert a + b == b; }
    else {
      assert (a + b)[1..] == a[1..] + b;
      BytesAppend(a[1..], b);
    }
  }

  /** A run evicted once would be evicted again: eviction may be put off to the end. */
  lemma {:induction false} EvictLater(budget: Budget, bs: seq<Stored>, b: Stored)
    ensures Evict(budget, Evict(budget, bs) + [b]) == Evict(budget, bs + [b])
  {
    if !Fits(budget, bs) {
      EvictLater(budget, bs[1..], b);
      BytesAppend(bs, [b]);
      assert (bs + [b])[1..] == bs[1..] + [b];
    }
  }

  /** After any stores under one budget, the pager holds the longest suffix of all runs that fits. */
  lemma {:induction false} StoreAllKeepsLongest(budget: Budget, runs: seq<Stored>)
    ensures StoreAll(budget, runs) == Evict(budget, runs)
  {
    if runs != [] {
      var (before, last) := (runs[..|runs| - 1], runs[|runs| - 1]);
      assert before + [last] == runs;
      StoreAllKeepsLongest(budget, before);
      hide Evict;
      EvictLater(budget, before, last);
    }
  }

  function IdOf(generation: string, ordinal: nat): string { "o" + generation + "-" + Decimal(ordinal) }

  lemma IdInjective(generation: string, m: nat, n: nat)
    requires IdOf(generation, m) == IdOf(generation, n)
    ensures m == n
  {
    var k := |"o" + generation + "-"|;
    assert IdOf(generation, m)[k..] == Decimal(m) && IdOf(generation, n)[k..] == Decimal(n);
    DecimalInjective(m, n);
  }

  /** Runs carry the ids counted out to them, and ranks that rise. */
  predicate Ordered(generation: string, runs: seq<Stored>, nextRank: nat) {
    && nextRank > 0
    && (forall i | 0 <= i < |runs| :: runs[i].id == IdOf(generation, i + 1) && 0 < runs[i].rank < nextRank && runs[i].Indexed())
    && (forall i, j | 0 <= i < j < |runs| :: runs[i].rank < runs[j].rank)
  }

  lemma OrderedGrows(generation: string, runs: seq<Stored>, nextRank: nat, b: Stored)
    requires Ordered(generation, runs, nextRank) && b.Indexed()
    requires b.id == IdOf(generation, |runs| + 1) && b.rank == nextRank
    ensures Ordered(generation, runs + [b], nextRank + 1)
  {}

  lemma SuffixGrows<T>(s: seq<T>, t: seq<T>, b: T)
    requires IsSuffix(s, t)
    ensures IsSuffix(s + [b], t + [b])
  {}

  lemma SuffixTrans<T>(r: seq<T>, s: seq<T>, t: seq<T>)
    requires IsSuffix(r, s) && IsSuffix(s, t)
    ensures IsSuffix(r, t)
  {}

  class Pager {
    const generation: string
    const sourceIdFor: Text -> string
    var buffers: seq<Stored>
    var retainedBytes: nat
    var budget: Budget
    var nextOrdinal: nat
    var nextRank: nat
    /** Every run ever stored, oldest first. */
    ghost var runs: seq<Stored>

    ghost predicate Valid()
      reads this
    {
      && IsSuffix(buffers, runs)
      && retainedBytes == Bytes(buffers)
      && nextOrdinal == |runs| + 1
      && Ordered(generation, runs, nextRank)
    }

    constructor (generation: string, sourceIdFor: Text -> string, budget: Budget)
      ensures Valid() && buffers == [] && runs == [] && this.budget == budget && nextRank == 1
      ensures this.generation == generation && this.sourceIdFor == sourceIdFor
    {
      this.generation, this.sourceIdFor, this.budget := generation, sourceIdFor, budget;
      buffers, retainedBytes, nextOrdinal, nextRank, runs := [], 0, 1, 1, [];
    }

    method SetBudget(budget: Budget)
      requires Valid()
      modifies this`budget
      ensures Valid() && this.budget == budget
    {
      this.budget := budget;
    }

    /** The next run ranks above everything a transcript already carries. */
    method ContinueRankingFrom(lastRank: nat)
      requires Valid()
      modifies this`nextRank
      ensures Valid() && nextRank > lastRank && nextRank >= old(nextRank)
      ensures nextRank == old(nextRank) || nextRank == lastRank + 1
    {
      nextRank := if nextRank > lastRank + 1 then nextRank else lastRank + 1;
    }

    method Store(c: Captured, sourceKey: Text) returns (b: Stored)
      requires Valid()
      modifies this`buffers, this`retainedBytes, this`nextOrdinal, this`nextRank, this`runs
      ensures Valid()
      ensures b.text == c.text && b.extent == c.extent && b.rank == old(nextRank) && b.Indexed()
      ensures b.source == if sourceKey == [] then "" else sourceIdFor(sourceKey)
      ensures runs == old(runs) + [b] && nextRank == old(nextRank) + 1
      ensures buffers == Evict(budget, old(buffers) + [b])
      ensures old(buffers == Evict(budget, runs)) ==> buffers == Evict(budget, runs)
    {
      hide Ordered, IsSuffix, IdOf, Evict, Bytes;
      var id := IdOf(generation, nextOrdinal);
      nextOrdinal := nextOrdinal + 1;
      var source := if |sourceKey| == 0 then "" else sourceIdFor(sourceKey);
      var rank := nextRank;
      nextRank := nextRank + 1;
      b := NewBuffer(id, source, c, rank);
      OrderedGrows(generation, runs, rank, b);
      SuffixGrows(buffers, runs, b);
      EvictLater(budget, runs, b);
      BytesAppend(buffers, [b]);
      BytesOfOne(b);
      buffers := buffers + [b];
      runs := runs + [b];
      retainedBytes := retainedBytes + |c.text|;
      ghost var all := buffers;
      EvictOldest();
      EvictIsLongest(budget, all, []);
      SuffixTrans(buffers, all, runs);
    }

    method EvictOldest()
      requires buffers != [] && retainedBytes == Bytes(buffers)
      modifies this`buffers, this`retainedBytes
      ensures buffers == Evict(budget, old(buffers)) && retainedBytes == Bytes(buffers)
    {
      while |buffers| > (if budget.retainBuffers > 1 then budget.retainBuffers else 1)
         || (retainedBytes > budget.retainBytes && |buffers| > 1)
        invariant buffers != []
        invariant retainedBytes == Bytes(buffers)
        invariant Evict(budget, buffers) == Evict(budget, old(buffers))
        decreases |buffers|
      {
        retainedBytes := retainedBytes - |buffers[0].text|;
        buffers := buffers[1..];
      }
    }

    /** The run that id names, when it is still held. */
    method Find(id: string) returns (b: Option<Stored>)
      requires Valid()
      ensures b.Some? ==> b.value in buffers && b.value.id == id
      ensures b.None? ==> forall i | 0 <= i < |buffers| :: buffers[i].id != id
      ensures forall i | 0 <= i < |runs| && Some(runs[i]) != b :: runs[i].id != id || runs[i] !in buffers
    {
      IdsAreDistinct();
      var k := 0;
      while k < |buffers|
        invariant 0 <= k <= |buffers|
        invariant forall i | 0 <= i < k :: buffers[i].id != id
      {
        if buffers[k].id == id { return Some(buffers[k]); }
        k := k + 1;
      }
      return None;
    }

    lemma IdsAreDistinct()
      requires Valid()
      ensures forall i, j | 0 <= i < j < |runs| :: runs[i].id != runs[j].id
    {
      forall i, j | 0 <= i < j < |runs| ensures runs[i].id != runs[j].id {
        if runs[i].id == runs[j].id { IdInjective(generation, i + 1, j + 1); }
      }
    }
  }
}
