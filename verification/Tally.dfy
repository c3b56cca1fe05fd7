/** Adding a weight up over a sequence, one entry per thread. */
module Tally {

  function Total<T>(xs: seq<T>, w: T -> nat): nat {
    if xs == [] then 0 else w(xs[0]) + Total(xs[1..], w)
  }

  lemma {:induction false} TotalUpdate<T>(xs: seq<T>, i: nat, x: T, w: T -> nat)
    requires i < |xs|
    ensures Total(xs[i := x], w) + w(xs[i]) == Total(xs, w) + w(x)
  {
    if i == 0 {
      assert xs[0 := x][1..] == xs[1..];
    } else {
      TotalUpdate(xs[1..], i - 1, x, w);
      assert xs[i := x][1..] == xs[1..][i - 1 := x];
    }
  }

  lemma {:induction false} TotalAppend<T>(xs: seq<T>, x: T, w: T -> nat)
    ensures Total(xs + [x], w) == Total(xs, w) + w(x)
  {
    if xs == [] {
      assert xs + [x] == [x];
    } else {
      TotalAppend(xs[1..], x, w);
      assert (xs + [x])[1..] == xs[1..] + [x];
    }
  }

  lemma {:induction false} TotalAtLeast<T>(xs: seq<T>, i: nat, w: T -> nat)
    requires i < |xs|
    ensures w(xs[i]) <= Total(xs, w)
  {
    if i > 0 {
      TotalAtLeast(xs[1..], i - 1, w);
      assert xs[1..][i - 1] == xs[i];
    }
  }

  lemma {:induction false} TotalOfTwo<T>(xs: seq<T>, i: nat, j: nat, w: T -> nat)
    requires i < j < |xs|
    ensures w(xs[i]) + w(xs[j]) <= Total(xs, w)
  {
    if i == 0 {
      TotalAtLeast(xs[1..], j - 1, w);
    } else {
      TotalOfTwo(xs[1..], i - 1, j - 1, w);
      assert xs[1..][i - 1] == xs[i];
    }
    assert xs[1..][j - 1] == xs[j];
  }

  lemma {:induction false} TotalZero<T>(xs: seq<T>, w: T -> nat)
    requires forall i :: 0 <= i < |xs| ==> w(xs[i]) == 0
    ensures Total(xs, w) == 0
  {
    if xs != [] {
      forall i | 0 <= i < |xs[1..]| ensures w(xs[1..][i]) == 0 { assert xs[1..][i] == xs[i + 1]; }
      TotalZero(xs[1..], w);
    }
  }

  /** A positive total has an entry that contributes. */
  lemma {:induction false} TotalPositive<T>(xs: seq<T>, w: T -> nat) returns (i: nat)
    requires Total(xs, w) > 0
    ensures i < |xs| && w(xs[i]) > 0
  {
    if w(xs[0]) > 0 {
      i := 0;
    } else {
      i := TotalPositive(xs[1..], w);
      i := i + 1;
    }
  }

  lemma {:induction false} TotalLeq<T>(xs: seq<T>, u: T -> nat, v: T -> nat)
    requires forall x :: x in xs ==> u(x) <= v(x)
    ensures Total(xs, u) <= Total(xs, v)
  {
    if xs != [] { TotalLeq(xs[1..], u, v); }
  }

  /** Weights that add up pointwise add up in total. */
  lemma {:induction false} TotalSum<T>(xs: seq<T>, u: T -> nat, v: T -> nat, w: T -> nat)
    requires forall x :: x in xs ==> w(x) == u(x) + v(x)
    ensures Total(xs, w) == Total(xs, u) + Total(xs, v)
  {
    if xs != [] { TotalSum(xs[1..], u, v, w); }
  }
}
