/** Numeric helpers shared by the money and quota computations. */
module Arith {

  /** Python's `int(x)` on a float: truncation toward zero. */
  function Trunc(x: real): (r: int)
    ensures 0.0 <= x ==> r as real <= x < r as real + 1.0
    ensures x < 0.0 ==> r as real - 1.0 < x <= r as real
  {
    if x >= 0.0 then x.Floor else -((-x).Floor)
  }

  /** A product of non-negative reals is non-negative. */
  lemma MulNonNegative(a: real, b: real)
    requires 0.0 <= a && 0.0 <= b
    ensures 0.0 <= a * b
  {
  }

  function Max(a: int, b: int): int { if a >= b then a else b }

  function Min(a: int, b: int): int { if a <= b then a else b }

  /** Sum of a sequence of amounts, left to right as Python's `sum`. */
  function Sum(s: seq<real>): real
  {
    if s == [] then 0.0 else Sum(s[..|s| - 1]) + s[|s| - 1]
  }

  lemma {:induction false} SumAppend(a: seq<real>, b: seq<real>)
    ensures Sum(a + b) == Sum(a) + Sum(b)
    decreases |b|
  {
    if b == [] {
      assert a + b == a;
    } else {
      assert (a + b)[..|a + b| - 1] == a + b[..|b| - 1];
      SumAppend(a, b[..|b| - 1]);
    }
  }

  /** Summing pointwise differences: the sum of `x - y` is the difference of the sums. */
  lemma {:induction false} SumDifference(x: seq<real>, y: seq<real>, d: seq<real>)
    requires |x| == |y| == |d|
    requires forall i :: 0 <= i < |d| ==> d[i] == x[i] - y[i]
    ensures Sum(d) == Sum(x) - Sum(y)
    decreases |d|
  {
    if d != [] {
      var n := |d| - 1;
      SumDifference(x[..n], y[..n], d[..n]);
    }
  }

  /** Summing a scaled sequence: the sum of `x * k` is the scaled sum. */
  lemma {:induction false} SumScaled(x: seq<real>, k: real, d: seq<real>)
    requires |x| == |d|
    requires forall i :: 0 <= i < |d| ==> d[i] == x[i] * k
    ensures Sum(d) == Sum(x) * k
    decreases |d|
  {
    if d != [] {
      var n := |d| - 1;
      SumScaled(x[..n], k, d[..n]);
    }
  }

  /** Sum of byte counts (`sum(assets.mapped('file_size_bytes'))`). */
  function SumNat(s: seq<nat>): nat
  {
    if s == [] then 0 else SumNat(s[..|s| - 1]) + s[|s| - 1]
  }

  lemma {:induction false} SumNatAppend(a: seq<nat>, b: seq<nat>)
    ensures SumNat(a + b) == SumNat(a) + SumNat(b)
    decreases |b|
  {
    if b == [] {
      assert a + b == a;
    } else {
      assert (a + b)[..|a + b| - 1] == a + b[..|b| - 1];
      SumNatAppend(a, b[..|b| - 1]);
    }
  }
}
