/** Sums of a function over a sequence of process states. */
module Tally {

  function Bit(b: bool): nat { if b then 1 else 0 }

  function Sum<T>(xs: seq<T>, f: T -> nat): nat {
    if xs == [] then 0 else f(xs[0]) + Sum(xs[1..], f)
  }

  lemma {:induction false} SumUpdate<T>(xs: seq<T>, f: T -> nat, i: nat, x: T)
    requires i < |xs|
    ensures Sum(xs[i := x], f) + f(xs[i]) == Sum(xs, f) + f(x)
  {
    if i == 0 {
      assert xs[0 := x][1..] == xs[1..];
    } else {
      SumUpdate(xs[1..], f, i - 1, x);
      assert xs[i := x][1..] == xs[1..][i - 1 := x];
    }
  }

  lemma {:induction false} SumLessEqual<T>(xs: seq<T>, f: T -> nat, g: T -> nat)
    requires forall i :: 0 <= i < |xs| ==> f(xs[i]) <= g(xs[i])
    ensures Sum(xs, f) <= Sum(xs, g)
    ensures (exists i :: 0 <= i < |xs| && f(xs[i]) < g(xs[i])) ==> Sum(xs, f) < Sum(xs, g)
  {
    if xs != [] {
      assert forall i :: 0 < i < |xs| ==> xs[i] == xs[1..][i - 1];
      SumLessEqual(xs[1..], f, g);
    }
  }

  lemma {:induction false} SumBound<T>(xs: seq<T>, f: T -> nat, c: nat)
    ensures (forall i :: 0 <= i < |xs| ==> f(xs[i]) <= c) ==> Sum(xs, f) <= c * |xs|
    ensures (forall i :: 0 <= i < |xs| ==> f(xs[i]) == c) ==> Sum(xs, f) == c * |xs|
  {
    if xs != [] {
      SumBound(xs[1..], f, c);
      assert c * |xs| == c + c * |xs[1..]|;
    }
  }

  lemma {:induction false} SumPositive<T>(xs: seq<T>, f: T -> nat)
    ensures Sum(xs, f) > 0 <==> exists i :: 0 <= i < |xs| && f(xs[i]) > 0
  {
    if xs != [] {
      assert forall i :: 0 < i < |xs| ==> xs[i] == xs[1..][i - 1];
      SumPositive(xs[1..], f);
      if i :| 0 <= i < |xs[1..]| && f(xs[1..][i]) > 0 {
        assert f(xs[i + 1]) > 0;
      }
    }
  }
}
