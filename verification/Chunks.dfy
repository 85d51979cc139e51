// A stream and the chunks it came in.
module Chunks {
  /** A stream from the chunks it came in. */
  function Joined<T>(chunks: seq<seq<T>>): seq<T> {
    if chunks == [] then [] else chunks[0] + Joined(chunks[1..])
  }

  lemma JoinedOne<T>(s: seq<T>)
    ensures Joined([s]) == s
  {
    assert [s][1..] == [];
    assert Joined<T>([]) == [];
    assert s + [] == s;
  }

  lemma JoinedTwo<T>(s: seq<T>, t: seq<T>)
    ensures Joined([s, t]) == s + t
  {
    assert [s, t][1..] == [t];
    JoinedOne(t);
  }
}
