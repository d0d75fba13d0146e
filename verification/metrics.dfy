/**
 The evaluation suite: the MSE figure exactly as it is computed (the square
 of the mean difference), the part of SNR that is not transcendental, and
 the shape of the result dictionary `evaluation` returns.
 */
module Metrics {
  import opened Wrappers
  import opened Vectors

  /**
   `EvaluationSuite.MSE`: the mean of `a - b`, squared. This is the squared
   mean of the differences, not the mean of the squared differences.
   */
  function Mse(a: seq<real>, b: seq<real>): (r: real)
    requires |a| == |b| > 0
    ensures r >= 0.0
  {
    var m := Mean(Sub(a, b));
    m * m
  }

  /** The mean of the squared differences, the figure the docstring names. */
  function MeanSquaredError(a: seq<real>, b: seq<real>): real
    requires |a| == |b| > 0
  {
    MeanPower(Sub(a, b))
  }

  /** A signal compared with itself has MSE zero. */
  lemma MseSelfZero(a: seq<real>)
    requires |a| > 0
    ensures Mse(a, a) == 0.0
  {
    SumConstant(Sub(a, a), 0.0);
  }

  /** The MSE does not depend on the order of its operands. */
  lemma MseSymmetric(a: seq<real>, b: seq<real>)
    requires |a| == |b| > 0
    ensures Mse(a, b) == Mse(b, a)
  {
    SumSubAntisymmetric(a, b);
    DivideDifference(0.0, Sum(Sub(a, b)), |a| as real);
    assert Mean(Sub(b, a)) == -Mean(Sub(a, b));
  }

  /** Two signals that differ by the constant `c` everywhere have MSE `c * c`. */
  lemma MseConstantOffset(a: seq<real>, b: seq<real>, c: real)
    requires |a| == |b| > 0
    requires forall i :: 0 <= i < |a| ==> a[i] - b[i] == c
    ensures Mse(a, b) == c * c
  {
    SumConstant(Sub(a, b), c);
    assert Mean(Sub(a, b)) == c;
  }

  /** The sum of a difference is the difference of the sums. */
  lemma {:induction false} SumSub(a: seq<real>, b: seq<real>)
    requires |a| == |b|
    ensures Sum(Sub(a, b)) == Sum(a) - Sum(b)
  {
    if |a| > 0 {
      assert Sub(a, b)[1..] == Sub(a[1..], b[1..]);
      SumSub(a[1..], b[1..]);
    }
  }

  /** The MSE is the squared distance between the two signals' means. */
  lemma MseOfMeans(a: seq<real>, b: seq<real>)
    requires |a| == |b| > 0
    ensures Mse(a, b) == (Mean(a) - Mean(b)) * (Mean(a) - Mean(b))
  {
    SumSub(a, b);
    DivideDifference(Sum(a), Sum(b), |a| as real);
  }

  lemma DivideDifference(x: real, y: real, n: real)
    requires n > 0.0
    ensures (x - y) / n == x / n - y / n
  {
  }

  /** `S * S <= n * Q` divided through by `n * n`. */
  lemma MeanSquareBound(S: real, Q: real, n: real)
    requires n > 0.0
    requires S * S <= n * Q
    ensures (S / n) * (S / n) <= Q / n
  {
    var m := S / n;
    assert S == m * n;
    assert m * m * (n * n) <= Q * n;
    assert (m * m) * n <= Q;
  }

  /**
   The computed figure never exceeds the mean squared error it is named
   after: it is the square of a mean, which is at most the mean of squares.
   */
  lemma MseAtMostMeanSquaredError(a: seq<real>, b: seq<real>)
    requires |a| == |b| > 0
    ensures Mse(a, b) <= MeanSquaredError(a, b)
  {
    SquaredSumBound(Sub(a, b));
    MeanSquareBound(Sum(Sub(a, b)), NormSquared(Sub(a, b)), |a| as real);
  }

  /**
   The two figures differ: differences `1` and `-1` cancel in the mean, so
   the computed MSE is `0` while the mean squared error is `1`.
   */
  lemma MseIsNotMeanSquaredError()
    ensures Mse([1.0, -1.0], [0.0, 0.0]) == 0.0
    ensures MeanSquaredError([1.0, -1.0], [0.0, 0.0]) == 1.0
  {
    var s := Sub([1.0, -1.0], [0.0, 0.0]);
    assert s == [1.0, -1.0];
    assert Sum(s[1..][1..]) == 0.0;
    assert Sum(s) == 0.0;
    DotUnfold(s, s);
    DotUnfold(s[1..], s[1..]);
    assert Dot(s[1..][1..], s[1..][1..]) == 0.0;
    assert NormSquared(s) == 2.0;
  }

  /** The constant `1e-10` the SNR adds to keep its divisions and logarithm defined. */
  const SnrFloor: real := 0.0000000001

  /** `np.mean(s ** 2)`, the power of a non-empty signal. */
  function MeanPower(s: seq<real>): (p: real)
    requires |s| > 0
    ensures p >= 0.0
  {
    NormSquaredNonNegative(s);
    NormSquared(s) / (|s| as real)
  }

  /** `signal_power / (noise_power + 1e-10)`: the power ratio before the logarithm. */
  function SnrRatio(signal: seq<real>, noise: seq<real>): (r: real)
    requires |signal| > 0 && |noise| > 0
    ensures r >= 0.0
    ensures r * (MeanPower(noise) + SnrFloor) == MeanPower(signal)
  {
    MeanPower(signal) / (MeanPower(noise) + SnrFloor)
  }

  /**
   The argument handed to `log10`, `ratio + 1e-10`. The SNR in decibels is
   ten times its base-10 logarithm, which is left out; what is kept is that
   the argument is always strictly positive, so the logarithm is defined.
   */
  function SnrLogArgument(signal: seq<real>, noise: seq<real>): (r: real)
    requires |signal| > 0 && |noise| > 0
    ensures r >= SnrFloor > 0.0
  {
    SnrRatio(signal, noise) + SnrFloor
  }

  /**
   A signal measured against itself as the noise has power ratio
   `p / (p + 1e-10)`, which is below one because the floor is added to the
   noise side only. It is close to one only when `p` is far above the floor.
   */
  lemma SnrRatioOfSelf(s: seq<real>)
    requires |s| > 0
    ensures SnrRatio(s, s) == MeanPower(s) / (MeanPower(s) + SnrFloor)
    ensures SnrRatio(s, s) < 1.0
  {
    var p := MeanPower(s);
    assert SnrRatio(s, s) * (p + SnrFloor) == p;
  }

  /** A silent signal has power ratio zero, whatever the noise. */
  lemma SnrRatioOfSilentSignal(signal: seq<real>, noise: seq<real>)
    requires |signal| > 0 && |noise| > 0
    requires AllZero(signal)
    ensures SnrRatio(signal, noise) == 0.0
    ensures SnrLogArgument(signal, noise) == SnrFloor
  {
    NormSquaredOfZero(signal);
  }

  /** Silence as the noise: the ratio is the signal power divided by the floor alone. */
  lemma SnrRatioOfSilentNoise(signal: seq<real>, noise: seq<real>)
    requires |signal| > 0 && |noise| > 0
    requires AllZero(noise)
    ensures SnrRatio(signal, noise) == MeanPower(signal) / SnrFloor
  {
    NormSquaredOfZero(noise);
  }

  /** `evaluation` raises when the SNR it needs is computed from a missing signal. */
  datatype EvalError = MissingSignal

  /**
   The result dictionary of `evaluation`: the `"MSE"` list and the `"SNR"`
   list, where each SNR entry is kept as its logarithm's argument.
   */
  datatype EvalResults = EvalResults(mse: seq<real>, snr: seq<real>)

  /**
   `EvaluationSuite.evaluation` for a suite built for `algorithm`. The MSE
   entry is always computed; the SNR entry only for `"LMS"`, from the clean
   signal against the error output, and a missing one of those raises.
   */
  function Evaluation(algorithm: string, desired: seq<real>, input: seq<real>,
                      errorOutput: Option<seq<real>>, clean: Option<seq<real>>): (r: Result<EvalResults, EvalError>)
    requires |desired| == |input| > 0
    requires errorOutput.Some? ==> |errorOutput.value| > 0
    requires clean.Some? ==> |clean.value| > 0
    ensures r.Failure? <==> algorithm == "LMS" && (clean.None? || errorOutput.None?)
    ensures r.Success? ==> |r.value.mse| == 1 && r.value.mse[0] == Mse(desired, input)
    ensures r.Success? ==> (|r.value.snr| == 1 <==> algorithm == "LMS")
    ensures r.Success? ==> (|r.value.snr| == 0 <==> algorithm != "LMS")
    ensures r.Success? && algorithm == "LMS" ==> r.value.snr[0] == SnrLogArgument(clean.value, errorOutput.value) >= SnrFloor
  {
    var mse := [Mse(desired, input)];
    if algorithm == "LMS" then
      if clean.None? || errorOutput.None? then Failure(MissingSignal)
      else Success(EvalResults(mse, [SnrLogArgument(clean.value, errorOutput.value)]))
    else
      Success(EvalResults(mse, []))
  }
}
