/**
 * `[...new Set(xs)]`: the distinct elements of a sequence in the order of
 * their first occurrence, as a JavaScript Set iterates them.
 */
module Dedup {

  function Distinct<T(==, !new)>(xs: seq<T>): (r: seq<T>)
    ensures forall x :: x in r <==> x in xs
    ensures |r| <= |xs|
    decreases |xs|
  {
    if |xs| == 0 then []
    else
      var d := Distinct(xs[..|xs| - 1]);
      assert forall x :: x in xs <==> x in xs[..|xs| - 1] || x == xs[|xs| - 1] by {
        assert xs == xs[..|xs| - 1] + [xs[|xs| - 1]];
      }
      if xs[|xs| - 1] in d then d else d + [xs[|xs| - 1]]
  }

  predicate NoDuplicates<T(==, !new)>(xs: seq<T>) {
    forall i, j :: 0 <= i < j < |xs| ==> xs[i] != xs[j]
  }

  /** No element is kept twice. */
  lemma {:induction false} DistinctHasNoDuplicates<T(!new)>(xs: seq<T>)
    ensures NoDuplicates(Distinct(xs))
    decreases |xs|
  {
    if |xs| > 0 {
      DistinctHasNoDuplicates(xs[..|xs| - 1]);
    }
  }

  /** De-duplicating only ever appends: the result for a prefix is a prefix. */
  lemma {:induction false} DistinctOfPrefix<T(!new)>(xs: seq<T>, k: nat)
    requires k <= |xs|
    ensures |Distinct(xs[..k])| <= |Distinct(xs)|
    ensures Distinct(xs[..k]) == Distinct(xs)[..|Distinct(xs[..k])|]
    decreases |xs|
  {
    if k < |xs| {
      var init := xs[..|xs| - 1];
      assert init[..k] == xs[..k];
      DistinctOfPrefix(init, k);
    } else {
      assert xs[..k] == xs;
    }
  }

  /** The first element survives de-duplication: `[...new Set(xs)][0] == xs[0]`. */
  lemma DistinctKeepsFirst<T(!new)>(xs: seq<T>)
    requires |xs| > 0
    ensures |Distinct(xs)| > 0 && Distinct(xs)[0] == xs[0]
  {
    DistinctOfPrefix(xs, 1);
    assert xs[..1] == [xs[0]];
    assert Distinct(xs[..1]) == [xs[0]] by {
      assert xs[..1][..0] == [];
    }
  }
}
