/**
 Python's `list(set(xs))`: the distinct elements of a list, enumerated in an
 order the interpreter chooses (hash-table order in CPython). The model
 leaves that order unspecified and promises only what every order shares.
 */
module PySets {

  /** No element occurs twice. */
  predicate Distinct<T(==,!new)>(xs: seq<T>) {
    forall i, j :: 0 <= i < j < |xs| ==> xs[i] != xs[j]
  }

  /** `set(xs)`: duplicates collapse, order is forgotten. */
  function Collapse<T(==,!new)>(xs: seq<T>): (s: set<T>)
    ensures forall x :: x in s <==> x in xs
    ensures |s| <= |xs|
  {
    if xs == [] then {} else
      var rest := Collapse(xs[..|xs| - 1]);
      assert xs == xs[..|xs| - 1] + [xs[|xs| - 1]];
      rest + {xs[|xs| - 1]}
  }

  /** `list(s)`: every element of `s` exactly once, in some order. */
  method Enumerate<T(==,!new)>(s: set<T>) returns (xs: seq<T>)
    ensures forall x :: x in xs <==> x in s
    ensures Distinct(xs)
    ensures |xs| == |s|
  {
    xs := [];
    var rest := s;
    while rest != {}
      invariant rest <= s
      invariant forall x :: x in xs <==> x in s && x !in rest
      invariant Distinct(xs)
      invariant |xs| + |rest| == |s|
      decreases rest
    {
      var x :| x in rest;
      xs := xs + [x];
      rest := rest - {x};
    }
  }

  /** Re-ordering a list or repeating its elements leaves its set unchanged. */
  lemma CollapseSameElements<T(!new)>(xs: seq<T>, ys: seq<T>)
    requires forall x :: x in xs <==> x in ys
    ensures Collapse(xs) == Collapse(ys)
  {
    forall x | x in Collapse(xs) ensures x in Collapse(ys) {
      assert x in xs;
    }
    forall x | x in Collapse(ys) ensures x in Collapse(xs) {
      assert x in ys;
    }
  }

  /** A permutation of a list has the same set. */
  lemma CollapsePermutation<T(!new)>(xs: seq<T>, ys: seq<T>)
    requires multiset(xs) == multiset(ys)
    ensures Collapse(xs) == Collapse(ys)
  {
    forall x ensures x in xs <==> x in ys {
      assert x in xs <==> x in multiset(xs);
      assert x in ys <==> x in multiset(ys);
    }
    CollapseSameElements(xs, ys);
  }

  /** Inserting a copy of an element anywhere leaves the set unchanged. */
  lemma CollapseDuplicate<T(!new)>(xs: seq<T>, i: nat, j: nat)
    requires i <= |xs| && j < |xs|
    ensures Collapse(xs[..i] + [xs[j]] + xs[i..]) == Collapse(xs)
  {
    var ys := xs[..i] + [xs[j]] + xs[i..];
    forall x ensures x in ys <==> x in xs {
      assert xs == xs[..i] + xs[i..];
    }
    CollapseSameElements(ys, xs);
  }

  /** A subset is no larger than the set containing it. */
  lemma SubsetCardinality<T>(a: set<T>, b: set<T>)
    requires a <= b
    ensures |a| <= |b|
  {
    assert b == a + (b - a);
  }
}
