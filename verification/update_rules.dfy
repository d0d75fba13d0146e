/**
 The per-sample weight-update rules a streaming filter is driven by. Each
 maps the current error sample `e` and the tap window `x` (newest sample
 first) to the increment that is added to the weight vector.
 */
module UpdateRules {
  import opened Vectors

  /** A weight-update rule: `(e[n], window) -> delta`. */
  type Update = (real, seq<real>) -> seq<real>

  /** The filter loop adds `delta` to a weight vector as long as the window, so a rule must keep lengths. */
  ghost predicate PreservesLength(upd: Update) {
    forall e, w :: |upd(e, w)| == |w|
  }

  /** The NLMS regulariser `eps`. */
  const Eps: real := 0.000001

  /** The base `FilterModel.update_step`: a zero vector as long as the window. */
  function BaseUpdate(e: real, x: seq<real>): (r: seq<real>)
    ensures |r| == |x|
    ensures AllZero(r)
  {
    Zeros(|x|)
  }

  /** LMS: the stochastic-gradient step `mu * e * x`. */
  function LmsUpdate(mu: real, e: real, x: seq<real>): (r: seq<real>)
    ensures |r| == |x|
  {
    Scale(mu * e, x)
  }

  /** The NLMS normaliser `p = eps + ||x||^2`. */
  function NlmsPower(x: seq<real>): (p: real)
    ensures p >= Eps
    ensures p > 0.0
    ensures AllZero(x) ==> p == Eps
  {
    NormSquaredNonNegative(x);
    NormSquaredOfZero(x);
    Eps + NormSquared(x)
  }

  /** NLMS: the normalised step `(mu / p) * e * x`; `p` is never zero, so the division is total. */
  function NlmsUpdate(mu: real, e: real, x: seq<real>): (r: seq<real>)
    ensures |r| == |x|
  {
    Scale(NlmsGain(mu, e, x), x)
  }

  /** The scalar `(mu / p) * e` the NLMS update multiplies the window by. */
  function NlmsGain(mu: real, e: real, x: seq<real>): real {
    (mu / NlmsPower(x)) * e
  }

  /** NLMS is LMS with the step size `mu` replaced by `mu / p`. */
  lemma NlmsIsNormalisedLms(mu: real, e: real, x: seq<real>)
    ensures NlmsUpdate(mu, e, x) == LmsUpdate(mu / NlmsPower(x), e, x)
  {
    var p := NlmsPower(x);
    var a := NlmsUpdate(mu, e, x);
    var b := LmsUpdate(mu / p, e, x);
    forall i | 0 <= i < |x| ensures a[i] == b[i] {
      assert a[i] == NlmsGain(mu, e, x) * x[i];
      assert b[i] == ((mu / p) * e) * x[i];
    }
  }

  /** The rules the streaming filter can be built with. */
  datatype Rule = BaseRule | LmsRule(mu: real) | NlmsRule(mu: real)

  function UpdateOf(rule: Rule): (upd: Update)
    ensures PreservesLength(upd)
  {
    match rule
    case BaseRule => BaseUpdate
    case LmsRule(mu) => (e, x) => LmsUpdate(mu, e, x)
    case NlmsRule(mu) => (e, x) => NlmsUpdate(mu, e, x)
  }

  /** Every LMS update is a multiple of the window and vanishes on zero error. */
  lemma LmsDirection(mu: real, e: real, x: seq<real>)
    ensures forall i :: 0 <= i < |x| ==> LmsUpdate(mu, e, x)[i] == (mu * e) * x[i]
    ensures e == 0.0 || mu == 0.0 ==> AllZero(LmsUpdate(mu, e, x))
  {
  }

  /**
   Every NLMS update points along the window, elementwise `(mu / p) * e * x[i]`,
   and it is zero when the error is zero or the window is all zero.
   */
  lemma NlmsDirection(mu: real, e: real, x: seq<real>)
    ensures forall i :: 0 <= i < |x| ==> NlmsUpdate(mu, e, x)[i] == (mu / NlmsPower(x)) * e * x[i]
    ensures exists c :: NlmsUpdate(mu, e, x) == Scale(c, x)
    ensures e == 0.0 ==> AllZero(NlmsUpdate(mu, e, x))
    ensures AllZero(x) ==> NlmsPower(x) == Eps && AllZero(NlmsUpdate(mu, e, x))
  {
    assert NlmsUpdate(mu, e, x) == Scale(NlmsGain(mu, e, x), x);
  }

  /**
   After an LMS step on window `x`, the prediction on that same window moves
   by `mu * e * ||x||^2`.
   */
  lemma LmsAPosteriori(W: seq<real>, mu: real, e: real, x: seq<real>)
    requires |W| == |x|
    ensures Dot(Add(W, LmsUpdate(mu, e, x)), x) == Dot(W, x) + mu * e * NormSquared(x)
  {
    assert LmsUpdate(mu, e, x) == Scale(mu * e, x);
    LmsStep(W, mu, e, x);
  }

  lemma LmsStep(W: seq<real>, mu: real, e: real, x: seq<real>)
    requires |W| == |x|
    ensures Dot(Add(W, Scale(mu * e, x)), x) == Dot(W, x) + (mu * e) * NormSquared(x)
  {
    DotAfterStep(W, mu * e, x);
  }

  /**
   After an NLMS step on window `x`, the prediction on that same window moves
   by `mu * e * ||x||^2 / p` with `0 <= ||x||^2 < p`: the correction is a
   fraction in `[0, 1)` of `mu * e`, whatever the input amplitude.
   */
  lemma NlmsAPosteriori(W: seq<real>, mu: real, e: real, x: seq<real>)
    requires |W| == |x|
    ensures Dot(Add(W, NlmsUpdate(mu, e, x)), x)
         == Dot(W, x) + mu * e * NormSquared(x) / NlmsPower(x)
    ensures 0.0 <= NormSquared(x) < NlmsPower(x)
  {
    var p := NlmsPower(x);
    assert NlmsUpdate(mu, e, x) == Scale(NlmsGain(mu, e, x), x);
    NlmsStep(W, mu, e, x);
    RegroupGain(mu, e, x);
    NormSquaredNonNegative(x);
  }

  lemma NlmsStep(W: seq<real>, mu: real, e: real, x: seq<real>)
    requires |W| == |x|
    ensures Dot(Add(W, Scale(NlmsGain(mu, e, x), x)), x) == Dot(W, x) + NlmsGain(mu, e, x) * NormSquared(x)
  {
    DotAfterStep(W, NlmsGain(mu, e, x), x);
  }

  lemma RegroupGain(mu: real, e: real, x: seq<real>)
    ensures NlmsGain(mu, e, x) * NormSquared(x) == mu * e * NormSquared(x) / NlmsPower(x)
  {
    Regroup(mu, e, NormSquared(x), NlmsPower(x));
  }

  lemma Regroup(mu: real, e: real, q: real, p: real)
    requires p > 0.0
    ensures ((mu / p) * e) * q == mu * e * q / p
  {
  }

  /** The three parametrised LMS cases of the unit tests. */
  lemma LmsUnitCases()
    ensures LmsUpdate(0.5, 2.0, [1.0, -1.0]) == [1.0, -1.0]
    ensures LmsUpdate(1.0, 1.0, [5.0, 2.0]) == [5.0, 2.0]
    ensures LmsUpdate(-1.0, 1.0, [0.5, 0.25]) == [-0.5, -0.25]
  {
    assert LmsUpdate(0.5, 2.0, [1.0, -1.0]) == [1.0, -1.0] by {
      assert Scale(0.5 * 2.0, [1.0, -1.0])[0] == 1.0;
      assert Scale(0.5 * 2.0, [1.0, -1.0])[1] == -1.0;
    }
    assert LmsUpdate(1.0, 1.0, [5.0, 2.0]) == [5.0, 2.0] by {
      assert Scale(1.0, [5.0, 2.0])[0] == 5.0;
      assert Scale(1.0, [5.0, 2.0])[1] == 2.0;
    }
    assert LmsUpdate(-1.0, 1.0, [0.5, 0.25]) == [-0.5, -0.25] by {
      assert Scale(-1.0, [0.5, 0.25])[0] == -0.5;
      assert Scale(-1.0, [0.5, 0.25])[1] == -0.25;
    }
  }

  /** A worked NLMS case: `x = [3, 4]`, `mu = e = 1` gives `p = 25.000001`. */
  lemma NlmsUnitCase()
    ensures NlmsPower([3.0, 4.0]) == 25.000001
    ensures NlmsUpdate(1.0, 1.0, [3.0, 4.0]) == [3.0 / 25.000001, 4.0 / 25.000001]
  {
    var x := [3.0, 4.0];
    DotUnfold(x[1..], x[1..]);
    assert Dot(x[1..][1..], x[1..][1..]) == 0.0;
    DotUnfold(x, x);
    assert NormSquared(x) == 25.0;
    var r := NlmsUpdate(1.0, 1.0, x);
    assert r[0] == 3.0 / 25.000001;
    assert r[1] == 4.0 / 25.000001;
  }
}
