/** Pigeonhole facts about sequences of distinct numbers. */
module Counting {

  predicate Distinct<T(==)>(xs: seq<T>) {
    forall i, j :: 0 <= i < j < |xs| ==> xs[i] != xs[j]
  }

  function Upto(n: nat): (s: set<nat>)
    ensures forall i: nat :: i in s <==> i < n
  {
    if n == 0 then {} else Upto(n - 1) + {n - 1}
  }

  lemma {:induction false} UptoSize(n: nat)
    ensures |Upto(n)| == n
  {
    if n > 0 {
      UptoSize(n - 1);
    }
  }

  function Elements<T>(xs: seq<T>): set<T> { set x | x in xs }

  lemma {:induction false} DistinctSize<T>(xs: seq<T>)
    requires Distinct(xs)
    ensures |Elements(xs)| == |xs|
  {
    if xs == [] {
      assert Elements(xs) == {};
    } else {
      var last := |xs| - 1;
      DistinctSize(xs[..last]);
      assert Elements(xs) == Elements(xs[..last]) + {xs[last]};
    }
  }

  lemma {:induction false} SubsetSize<T>(a: set<T>, b: set<T>)
    requires a <= b
    ensures |a| <= |b|
  {
    if a != {} {
      var x :| x in a;
      SubsetSize(a - {x}, b - {x});
    }
  }

  /** At most `n` distinct numbers are below `n`. */
  lemma Pigeonhole(xs: seq<nat>, n: nat)
    requires Distinct(xs) && forall i :: 0 <= i < |xs| ==> xs[i] < n
    ensures |xs| <= n
  {
    DistinctSize(xs);
    UptoSize(n);
    SubsetSize(Elements(xs), Upto(n));
  }

  /** A sequence that mentions every number below `n` has at least `n` members. */
  lemma Covering(xs: seq<nat>, n: nat)
    requires Distinct(xs) && forall i: nat :: i < n ==> i in xs
    ensures n <= |xs|
  {
    DistinctSize(xs);
    UptoSize(n);
    SubsetSize(Upto(n), Elements(xs));
  }

  /** There is always a number left over. */
  lemma NotIn(used: set<nat>) returns (i: nat)
    ensures i !in used
  {
    i := |used|;
    if i in used {
      UptoSize(|used| + 1);
      if forall n: nat :: n < |used| + 1 ==> n in used {
        SubsetSize(Upto(|used| + 1), used);
        assert false;
      }
      i :| i < |used| + 1 && i !in used;
    }
  }
}
