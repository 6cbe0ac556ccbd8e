/** Facts about sequence concatenation that the report proofs use. */
module SeqFacts {

  /** Concatenation is associative. */
  lemma AppendAssoc<T>(x: seq<T>, y: seq<T>, z: seq<T>)
    ensures x + y + z == x + (y + z)
  {
  }

  /** Dropping the last element of `a + b`, for a non-empty `b`. */
  lemma InitOfAppend<T>(a: seq<T>, b: seq<T>)
    requires b != []
    ensures (a + b)[..|a + b| - 1] == a + b[..|b| - 1]
    ensures (a + b)[|a + b| - 1] == b[|b| - 1]
  {
  }

  /** Taking one occurrence of `x` out of both sides of a permutation leaves a permutation. */
  lemma RemoveOne<T>(init: seq<T>, x: T, q: seq<T>, k: nat)
    requires k < |q| && q[k] == x
    requires multiset(init + [x]) == multiset(q)
    ensures multiset(init) == multiset(q[..k] + q[k + 1..])
  {
    var before, after := q[..k], q[k + 1..];
    assert q == before + [x] + after;
    assert multiset(init) == multiset(init + [x]) - multiset{x};
    assert multiset(before + after) == multiset(q) - multiset{x};
  }
}
