/** Real vectors as numpy handles them in the core: element-wise division by a
    scalar, the L2 normalisation gate, and the maximum and minimum of a vector. */
module Vectors {
  import opened Base

  /** Every element of `v` divided by `d` (numpy `v / d`). */
  function DivideAll(v: seq<real>, d: real): (r: seq<real>)
    requires d != 0.0
    ensures |r| == |v|
    ensures forall i :: 0 <= i < |v| ==> r[i] == v[i] / d
  {
    if v == [] then [] else [v[0] / d] + DivideAll(v[1..], d)
  }

  /** The vector with every element shifted by `-c` (numpy `v - c`). */
  function SubtractAll(v: seq<real>, c: real): (r: seq<real>)
    ensures |r| == |v|
    ensures forall i :: 0 <= i < |v| ==> r[i] + c == v[i]
  {
    if v == [] then [] else [v[0] - c] + SubtractAll(v[1..], c)
  }

  /** `if norm > 0: v = v / norm`, with `n` the norm of `v`. */
  function L2Normalize(v: seq<real>, n: real): seq<real>
  {
    if n > 0.0 then DivideAll(v, n) else v
  }

  /** numpy `max` of a non-empty vector. */
  function MaxOf(v: seq<real>): (m: real)
    requires v != []
    ensures m in v
    ensures forall i :: 0 <= i < |v| ==> v[i] <= m
  {
    if |v| == 1 then v[0]
    else
      var rest := MaxOf(v[1..]);
      assert forall i :: 1 <= i < |v| ==> v[i] == v[1..][i - 1];
      if v[0] >= rest then v[0] else rest
  }

  /** numpy `min` of a non-empty vector. */
  function MinOf(v: seq<real>): (m: real)
    requires v != []
    ensures m in v
    ensures forall i :: 0 <= i < |v| ==> m <= v[i]
  {
    if |v| == 1 then v[0]
    else
      var rest := MinOf(v[1..]);
      assert forall i :: 1 <= i < |v| ==> v[i] == v[1..][i - 1];
      if v[0] <= rest then v[0] else rest
  }

  predicate AllZero(v: seq<real>)
  {
    forall i :: 0 <= i < |v| ==> v[i] == 0.0
  }

  // Facts of real arithmetic, stated on `Mul` and `Sq`.

  lemma MulPos(x: real, y: real)
    ensures x > 0.0 && y > 0.0 ==> Mul(x, y) > 0.0
  {
  }

  lemma MulNegNeg(x: real, y: real)
    ensures x < 0.0 && y < 0.0 ==> Mul(x, y) > 0.0
  {
  }

  lemma MulZero(x: real, y: real)
    ensures x == 0.0 ==> Mul(x, y) == 0.0
  {
  }

  lemma MulDistrib(a: real, b: real, c: real)
    ensures Mul(a + b, c) == Mul(a, c) + Mul(b, c)
  {
  }

  lemma SqPos(x: real)
    requires x != 0.0
    ensures Sq(x) > 0.0
  {
    MulPos(x, x);
    MulNegNeg(x, x);
  }

  lemma SqZero(x: real)
    requires x == 0.0
    ensures Sq(x) == 0.0
  {
    MulZero(x, x);
  }

  lemma SqNonNegative(x: real)
    ensures Sq(x) >= 0.0
  {
    if x != 0.0 {
      SqPos(x);
    } else {
      SqZero(x);
    }
  }

  /** A non-negative number is positive exactly when its square is. */
  lemma PositiveIffSqPositive(n: real)
    requires n >= 0.0
    ensures n > 0.0 <==> Sq(n) > 0.0
  {
    if n > 0.0 {
      SqPos(n);
    } else {
      SqZero(n);
    }
  }

  /** The only non-negative square root of 1 is 1. */
  lemma SqUnit(n: real)
    requires n >= 0.0 && Sq(n) == 1.0
    ensures n == 1.0
  {
    MulPos(n - 1.0, n + 1.0);
    MulPos(1.0 - n, n + 1.0);
  }

  lemma CancelPositive(s: real, k: real)
    requires k > 0.0 && Mul(s, k) == k
    ensures s == 1.0
  {
    MulPos(s - 1.0, k);
    MulPos(1.0 - s, k);
  }

  lemma QuotientMul(c: real, n: real)
    requires n != 0.0
    ensures Mul(c / n, n) == c
  {
  }

  /** A ratio `c / n` with positive `n` is 0 exactly for `c == 0`, 1 exactly
      for `c == n`, and lies in [0, 1] when `c` does in [0, n]. */
  lemma QuotientFacts(c: real, n: real)
    requires n > 0.0
    ensures c / n == 0.0 <==> c == 0.0
    ensures c / n == 1.0 <==> c == n
    ensures 0.0 <= c <= n ==> 0.0 <= c / n <= 1.0
    ensures c <= n ==> c / n <= 1.0
    ensures c >= 0.0 ==> c / n >= 0.0
  {
    var q := c / n;
    QuotientMul(c, n);
    MulZero(q, n);
    MulPos(q, n);
    MulPos(-q, n);
    MulPos(q - 1.0, n);
    MulPos(1.0 - q, n);
    MulDistrib(q, -1.0, n);
    MulDistrib(1.0, -q, n);
    MulDistrib(q, -q, n);
  }

  /** (x / d)^2 * d^2 == x^2 */
  lemma QuotientSquare(x: real, d: real)
    requires d != 0.0
    ensures Mul(Sq(x / d), Sq(d)) == Sq(x)
  {
    var q := x / d;
    assert q * d == x;
    assert (q * q) * (d * d) == (q * d) * (q * d);
  }

  // The sum of squares and the L2 gate.

  lemma {:induction false} SumSqNonNegative(v: seq<real>)
    ensures SumSq(v) >= 0.0
  {
    if v != [] {
      SumSqNonNegative(v[1..]);
      SqNonNegative(v[0]);
    }
  }

  /** The sum of squares vanishes on the all-zero (or empty) vector... */
  lemma {:induction false} SumSqOfZero(v: seq<real>)
    ensures AllZero(v) ==> SumSq(v) == 0.0
  {
    if v != [] && AllZero(v) {
      assert AllZero(v[1..]) by {
        assert forall i :: 1 <= i < |v| ==> v[i] == v[1..][i - 1];
      }
      SumSqOfZero(v[1..]);
      SqZero(v[0]);
    }
  }

  /** ... and is positive on every other vector. */
  lemma {:induction false} SumSqPositive(v: seq<real>)
    ensures !AllZero(v) ==> SumSq(v) > 0.0
  {
    if v != [] && !AllZero(v) {
      SumSqNonNegative(v[1..]);
      SqNonNegative(v[0]);
      if v[0] != 0.0 {
        SqPos(v[0]);
      } else {
        assert !AllZero(v[1..]) by {
          var i :| 0 <= i < |v| && v[i] != 0.0;
          assert v[1..][i - 1] == v[i];
        }
        SumSqPositive(v[1..]);
      }
    }
  }

  /** Dividing by `d` divides the sum of squares by `d * d`. */
  lemma {:induction false} SumSqDivide(v: seq<real>, d: real)
    requires d != 0.0
    ensures Mul(SumSq(DivideAll(v, d)), Sq(d)) == SumSq(v)
  {
    if v != [] {
      SumSqDivide(v[1..], d);
      QuotientSquare(v[0], d);
      var w := DivideAll(v, d);
      assert w[1..] == DivideAll(v[1..], d);
      MulDistrib(Sq(v[0] / d), SumSq(w[1..]), Sq(d));
    }
  }

  /** The gate `norm > 0` is taken exactly when some element is non-zero. */
  lemma NormPositiveIff(v: seq<real>, n: real)
    requires IsL2Norm(v, n)
    ensures n > 0.0 <==> !AllZero(v)
  {
    PositiveIffSqPositive(n);
    SumSqOfZero(v);
    SumSqPositive(v);
  }

  /** A vector that passes the gate comes out with unit L2 norm. */
  lemma NormalizedIsUnit(v: seq<real>, n: real)
    requires IsL2Norm(v, n) && n > 0.0
    ensures SumSq(L2Normalize(v, n)) == 1.0
  {
    SumSqDivide(v, n);
    SqPos(n);
    CancelPositive(SumSq(DivideAll(v, n)), Sq(n));
  }

  /** Dividing the zero vector by anything leaves it unchanged. */
  lemma DivideZero(v: seq<real>, d: real)
    requires AllZero(v) && d != 0.0
    ensures DivideAll(v, d) == v
  {
  }

  /** An all-zero (or empty) vector leaves the gate unchanged. */
  lemma ZeroVectorUnchanged(v: seq<real>, n: real)
    requires IsL2Norm(v, n) && AllZero(v)
    ensures L2Normalize(v, n) == v
  {
    NormPositiveIff(v, n);
  }

  lemma {:induction false} DivideByOne(v: seq<real>)
    ensures DivideAll(v, 1.0) == v
  {
    if v != [] {
      DivideByOne(v[1..]);
    }
  }

  /** Normalising an already normalised vector returns it unchanged. */
  lemma NormalizeIdempotent(v: seq<real>, n: real, n': real)
    requires IsL2Norm(v, n)
    requires IsL2Norm(L2Normalize(v, n), n')
    ensures L2Normalize(L2Normalize(v, n), n') == L2Normalize(v, n)
  {
    var w := L2Normalize(v, n);
    if n > 0.0 {
      NormalizedIsUnit(v, n);
      SqUnit(n');
      DivideByOne(w);
    } else {
      NormPositiveIff(v, n);
      if n' > 0.0 {
        DivideZero(w, n');
      }
    }
  }

  /** A vector whose maximum is positive has a positive L2 norm. */
  lemma MaxPositiveNormPositive(v: seq<real>, n: real)
    requires v != [] && IsL2Norm(v, n) && MaxOf(v) > 0.0
    ensures n > 0.0
  {
    var m := MaxOf(v);
    var i :| 0 <= i < |v| && v[i] == m;
    assert !AllZero(v);
    NormPositiveIff(v, n);
  }
}
