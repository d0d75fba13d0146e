/**
 Exact real vectors and the handful of numpy operations the filter engine
 uses on them: zero arrays, elementwise sum, difference and scaling, the
 inner product and the sum / mean of a signal.
 */
module Vectors {

  /** `np.zeros(n)` */
  function Zeros(n: nat): (r: seq<real>)
    ensures |r| == n
    ensures forall i :: 0 <= i < n ==> r[i] == 0.0
  {
    seq(n, _ => 0.0)
  }

  ghost predicate AllZero(v: seq<real>) {
    forall i :: 0 <= i < |v| ==> v[i] == 0.0
  }

  /** Elementwise `a + b` of two equally long arrays. */
  function Add(a: seq<real>, b: seq<real>): (r: seq<real>)
    requires |a| == |b|
    ensures |r| == |a|
    ensures forall i :: 0 <= i < |r| ==> r[i] == a[i] + b[i]
  {
    seq(|a|, i requires 0 <= i < |a| => a[i] + b[i])
  }

  /** Elementwise `a - b` of two equally long arrays. */
  function Sub(a: seq<real>, b: seq<real>): (r: seq<real>)
    requires |a| == |b|
    ensures |r| == |a|
    ensures forall i :: 0 <= i < |r| ==> r[i] == a[i] - b[i]
  {
    seq(|a|, i requires 0 <= i < |a| => a[i] - b[i])
  }

  /** Scalar times array, `c * v`. */
  function Scale(c: real, v: seq<real>): (r: seq<real>)
    ensures |r| == |v|
    ensures forall i :: 0 <= i < |r| ==> r[i] == c * v[i]
  {
    seq(|v|, i requires 0 <= i < |v| => c * v[i])
  }

  /** Position-aligned inner product, `np.dot(a, b)` on 1-D arrays. */
  function Dot(a: seq<real>, b: seq<real>): real
    requires |a| == |b|
    decreases |a|, 1
  {
    if |a| == 0 then 0.0 else DotCons(a, b)
  }

  /** The inner product of non-empty vectors: the product of the heads plus the inner product of the tails. */
  function DotCons(a: seq<real>, b: seq<real>): real
    requires |a| == |b| > 0
    decreases |a|, 0
  {
    a[0] * b[0] + Dot(a[1..], b[1..])
  }

  /** Squared Euclidean norm, `np.linalg.norm(v) ** 2` over exact reals. */
  function NormSquared(v: seq<real>): real {
    Dot(v, v)
  }

  /** `np.sum` of a 1-D array. */
  function Sum(s: seq<real>): real {
    if |s| == 0 then 0.0 else s[0] + Sum(s[1..])
  }

  /** `np.mean` of a non-empty 1-D array. */
  function Mean(s: seq<real>): real
    requires |s| > 0
  {
    Sum(s) / (|s| as real)
  }

  /** One step of the inner product of non-empty vectors. */
  lemma DotUnfold(a: seq<real>, b: seq<real>)
    requires |a| == |b| > 0
    ensures Dot(a, b) == a[0] * b[0] + Dot(a[1..], b[1..])
  {
    assert Dot(a, b) == DotCons(a, b);
  }

  /** A real square is never negative. */
  lemma SquareNonNegative(x: real)
    ensures x * x >= 0.0
  {
  }

  /** All-zero weights give inner product zero. */
  lemma {:induction false} DotZeroLeft(a: seq<real>, b: seq<real>)
    requires |a| == |b|
    ensures AllZero(a) ==> Dot(a, b) == 0.0
  {
    if |a| > 0 && AllZero(a) {
      assert AllZero(a[1..]) by {
        forall i | 0 <= i < |a[1..]| ensures a[1..][i] == 0.0 {
          assert a[1..][i] == a[i + 1];
        }
      }
      DotUnfold(a, b);
      DotZeroLeft(a[1..], b[1..]);
    }
  }

  lemma {:induction false} DotSymmetric(a: seq<real>, b: seq<real>)
    requires |a| == |b|
    ensures Dot(a, b) == Dot(b, a)
  {
    if |a| > 0 {
      DotUnfold(a, b);
      DotUnfold(b, a);
      DotSymmetric(a[1..], b[1..]);
    }
  }

  /** The inner product is additive in its left argument. */
  lemma {:induction false} DotAddLeft(a: seq<real>, b: seq<real>, c: seq<real>)
    requires |a| == |b| == |c|
    ensures Dot(Add(a, b), c) == Dot(a, c) + Dot(b, c)
  {
    if |a| > 0 {
      assert Add(a, b)[1..] == Add(a[1..], b[1..]);
      DotUnfold(Add(a, b), c);
      DotUnfold(a, c);
      DotUnfold(b, c);
      DotAddLeft(a[1..], b[1..], c[1..]);
    }
  }

  /** The inner product is homogeneous in its left argument. */
  lemma {:induction false} DotScaleLeft(k: real, a: seq<real>, c: seq<real>)
    requires |a| == |c|
    ensures Dot(Scale(k, a), c) == k * Dot(a, c)
  {
    if |a| > 0 {
      assert Scale(k, a)[1..] == Scale(k, a[1..]) by {
        forall i | 0 <= i < |a| - 1 ensures Scale(k, a)[1..][i] == Scale(k, a[1..])[i] {
          assert Scale(k, a)[1..][i] == k * a[i + 1];
        }
      }
      DotUnfold(Scale(k, a), c);
      DotUnfold(a, c);
      DotScaleLeft(k, a[1..], c[1..]);
    }
  }

  lemma DotScaleSelf(k: real, x: seq<real>)
    ensures Dot(Scale(k, x), x) == k * NormSquared(x)
  {
    DotScaleLeft(k, x, x);
  }

  /** Adding `k * x` to a weight vector moves its inner product with `x` by `k * ||x||^2`. */
  lemma DotAfterStep(W: seq<real>, k: real, x: seq<real>)
    requires |W| == |x|
    ensures Dot(Add(W, Scale(k, x)), x) == Dot(W, x) + k * NormSquared(x)
  {
    DotAddLeft(W, Scale(k, x), x);
    DotScaleSelf(k, x);
  }

  /** A squared norm is never negative. */
  lemma {:induction false} NormSquaredNonNegative(v: seq<real>)
    ensures NormSquared(v) >= 0.0
  {
    if |v| > 0 {
      DotUnfold(v, v);
      NormSquaredNonNegative(v[1..]);
      SquareNonNegative(v[0]);
    }
  }

  /** The zero vector has squared norm zero. */
  lemma {:induction false} NormSquaredOfZero(v: seq<real>)
    ensures AllZero(v) ==> NormSquared(v) == 0.0
  {
    if |v| > 0 && AllZero(v) {
      assert AllZero(v[1..]) by {
        forall i | 0 <= i < |v[1..]| ensures v[1..][i] == 0.0 {
          assert v[1..][i] == v[i + 1];
        }
      }
      DotUnfold(v, v);
      NormSquaredOfZero(v[1..]);
    }
  }

  /** A signal whose every sample is `c` sums to `|s| * c`. */
  lemma {:induction false} SumConstant(s: seq<real>, c: real)
    requires forall i :: 0 <= i < |s| ==> s[i] == c
    ensures Sum(s) == (|s| as real) * c
  {
    if |s| > 0 {
      SumConstant(s[1..], c);
    }
  }

  /** Swapping the operands of a difference negates its sum. */
  lemma {:induction false} SumSubAntisymmetric(a: seq<real>, b: seq<real>)
    requires |a| == |b|
    ensures Sum(Sub(b, a)) == -Sum(Sub(a, b))
  {
    if |a| > 0 {
      assert Sub(a, b)[1..] == Sub(a[1..], b[1..]);
      assert Sub(b, a)[1..] == Sub(b[1..], a[1..]);
      SumSubAntisymmetric(a[1..], b[1..]);
    }
  }

  /** One induction step of `SquaredSumBound`, as plain real arithmetic. */
  lemma SquaredSumStep(n: real, S: real, Q: real, t: real)
    requires n > 0.0
    requires S * S <= n * Q
    ensures (t + S) * (t + S) <= (n + 1.0) * (t * t + Q)
  {
    var X := Q + n * t * t - 2.0 * S * t;
    SquareNonNegative(S - n * t);
    assert (S - n * t) * (S - n * t) == S * S - 2.0 * n * S * t + n * n * t * t;
    assert n * X == n * Q + n * n * t * t - 2.0 * n * S * t;
    assert n * X >= 0.0;
    assert X >= 0.0;
    assert (n + 1.0) * (t * t + Q) - (t + S) * (t + S) == (n * Q - S * S) + X;
  }

  /**
   Cauchy-Schwarz against the all-ones vector: the squared sum of a signal is
   at most its length times its sum of squares.
   */
  lemma {:induction false} SquaredSumBound(s: seq<real>)
    ensures Sum(s) * Sum(s) <= (|s| as real) * NormSquared(s)
  {
    if |s| == 1 {
      assert Sum(s) == s[0];
      DotUnfold(s, s);
      assert Dot(s[1..], s[1..]) == 0.0;
    } else if |s| > 1 {
      DotUnfold(s, s);
      SquaredSumBound(s[1..]);
      SquaredSumStep(|s[1..]| as real, Sum(s[1..]), NormSquared(s[1..]), s[0]);
    }
  }
}
