/**
 The streaming adaptive FIR filter: a weight vector `W` of length `N` and a
 tap window holding the `N` most recent reference samples, newest first.
 For every sample it predicts the noise `y[n] = W . window`, forms the error
 `e[n] = d[n] - y[n]` and adds the update rule's increment to `W` before the
 next sample is read.

 The loop is modelled twice: `Run` is the fold over the samples that the
 properties are stated about, and `FilterLoop` is the array-style loop of the
 implementation (zeroed output arrays, `np.roll` then write index 0), proved
 to compute the same result.
 */
module FilterModel {
  import opened Wrappers
  import opened Vectors
  import opened UpdateRules

  function Min(a: int, b: int): int {
    if a <= b then a else b
  }

  /** Python's `s[:k]` for `k >= 0`: a slice past the end stops at the end. */
  function Prefix(s: seq<real>, k: nat): (r: seq<real>)
    ensures |r| == Min(|s|, k)
    ensures r <= s
  {
    if k < |s| then s[..k] else s
  }

  /** The three input signals after alignment. */
  datatype Aligned = Aligned(d: seq<real>, x: seq<real>, clean: seq<real>)

  /** The number of samples the filter processes. */
  function CommonLength(d: seq<real>, x: seq<real>, clean: seq<real>): nat {
    Min(|d|, Min(|x|, |clean|))
  }

  /**
   The two-step truncation: the reference `x` is first cut to the length of
   `d`, then `d` and `x` are both cut to the length of the clean signal. The
   clean signal itself is never cut, and `d` may stay longer than `x`.
   */
  function Truncate(d: seq<real>, x: seq<real>, clean: seq<real>): (a: Aligned)
    ensures |a.x| == CommonLength(d, x, clean)
    ensures |a.d| == Min(|d|, |clean|)
    ensures a.d <= d && a.x <= x && a.clean == clean
  {
    var x1 := if |d| < |x| then Prefix(x, |d|) else x;
    if |clean| < |d| then Aligned(Prefix(d, |clean|), Prefix(x1, |clean|), clean)
    else Aligned(d, x1, clean)
  }

  /** `np.roll(w, 1)`: every tap moves one place towards the end and the last wraps round to the front. */
  function Roll(w: seq<real>): (r: seq<real>)
    ensures |r| == |w|
    ensures |w| > 0 ==> r[0] == w[|w| - 1]
    ensures forall i :: 0 < i < |w| ==> r[i] == w[i - 1]
  {
    if |w| == 0 then [] else [w[|w| - 1]] + w[..|w| - 1]
  }

  /**
   Roll the window, then write the new sample at index 0. The result is a
   shift register: the new sample in front, every older tap one place later
   and the oldest dropped.
   */
  function Push(w: seq<real>, s: real): (r: seq<real>)
    requires |w| > 0
    ensures r == [s] + w[..|w| - 1]
  {
    Roll(w)[0 := s]
  }

  /**
   The reference window at sample `n`: tap `i` holds `x[n - i]`, and the taps
   reaching back before the start of the signal hold zero.
   */
  function Taps(x: seq<real>, n: nat, N: nat): (r: seq<real>)
    requires n < |x|
    ensures |r| == N
  {
    seq(N, i requires 0 <= i < N => if i <= n then x[n - i] else 0.0)
  }

  /**
   `FilterModel.noise_estimate`: the position-aligned inner product of the
   weights with the window. It reads `W^T x` and `x^T W` alike, and
   all-zero weights predict no noise.
   */
  function NoiseEstimate(W: seq<real>, window: seq<real>): (y: real)
    requires |W| == |window|
    ensures y == Dot(window, W)
    ensures AllZero(W) ==> y == 0.0
  {
    DotSymmetric(W, window);
    DotZeroLeft(W, window);
    Dot(W, window)
  }

  /**
   `FilterModel.error`: `e[n] = d[n] - y[n]`. Adding the noise estimate back
   to the error recovers the desired sample.
   */
  function ErrorSample(dn: real, y: real): (e: real)
    ensures e + y == dn
  {
    dn - y
  }

  /** Pushing the first sample into the zeroed window gives the window of sample 0. */
  lemma PushFirst(x: seq<real>, N: nat)
    requires N > 0 && |x| > 0
    ensures Push(Zeros(N), x[0]) == Taps(x, 0, N)
  {
    var a := Push(Zeros(N), x[0]);
    var b := Taps(x, 0, N);
    forall i | 0 <= i < N ensures a[i] == b[i] {
    }
  }

  /** Pushing sample `n + 1` into the window of sample `n` gives the window of sample `n + 1`. */
  lemma PushNext(x: seq<real>, n: nat, N: nat)
    requires N > 0 && n + 1 < |x|
    ensures Push(Taps(x, n, N), x[n + 1]) == Taps(x, n + 1, N)
  {
    var a := Push(Taps(x, n, N), x[n + 1]);
    var b := Taps(x, n + 1, N);
    forall i | 0 <= i < N ensures a[i] == b[i] {
      if i > 0 {
        assert a[i] == Taps(x, n, N)[i - 1];
      }
    }
  }

  /** What the loop has produced after its first `n` samples. */
  datatype Trace = Trace(errors: seq<real>, estimates: seq<real>, weights: seq<real>, window: seq<real>)

  /**
   One pass of the loop body: push the sample, predict, form the error and
   add the update to the weights.
   */
  function Step(upd: Update, prev: Trace, dn: real, xn: real): (t: Trace)
    requires PreservesLength(upd)
    requires |prev.window| > 0 && |prev.weights| == |prev.window|
    ensures |t.errors| == |prev.errors| + 1 && |t.estimates| == |prev.estimates| + 1
    ensures t.errors[..|prev.errors|] == prev.errors
    ensures t.estimates[..|prev.estimates|] == prev.estimates
    ensures t.window == Push(prev.window, xn)
    ensures t.estimates[|prev.estimates|] == Dot(prev.weights, t.window)
    ensures t.errors[|prev.errors|] == dn - t.estimates[|prev.estimates|]
    ensures t.weights == Add(prev.weights, upd(t.errors[|prev.errors|], t.window))
  {
    var window := Push(prev.window, xn);
    var y := NoiseEstimate(prev.weights, window);
    var e := ErrorSample(dn, y);
    assert (prev.errors + [e])[..|prev.errors|] == prev.errors;
    assert (prev.estimates + [y])[..|prev.estimates|] == prev.estimates;
    Trace(prev.errors + [e], prev.estimates + [y], Add(prev.weights, upd(e, window)), window)
  }

  /**
   The sample loop as a fold over the first `n` samples, starting from the
   weights `W0` and a zeroed window of the same length.
   */
  function Run(upd: Update, W0: seq<real>, d: seq<real>, x: seq<real>, n: nat): (t: Trace)
    requires PreservesLength(upd)
    requires |W0| > 0 && n <= |d| && n <= |x|
    ensures |t.errors| == n && |t.estimates| == n
    ensures |t.weights| == |W0| && |t.window| == |W0|
    ensures forall j :: 0 <= j < n ==> t.errors[j] == d[j] - t.estimates[j]
    decreases n, 1
  {
    if n == 0 then Trace([], [], W0, Zeros(|W0|)) else RunCons(upd, W0, d, x, n)
  }

  /** The fold after at least one sample: one `Step` on top of the fold over the samples before it. */
  function RunCons(upd: Update, W0: seq<real>, d: seq<real>, x: seq<real>, n: nat): (t: Trace)
    requires PreservesLength(upd)
    requires |W0| > 0 && 0 < n <= |d| && n <= |x|
    ensures |t.errors| == n && |t.estimates| == n
    ensures |t.weights| == |W0| && |t.window| == |W0|
    ensures forall j :: 0 <= j < n ==> t.errors[j] == d[j] - t.estimates[j]
    decreases n, 0
  {
    var prev := Run(upd, W0, d, x, n - 1);
    var t := Step(upd, prev, d[n - 1], x[n - 1]);
    assert forall j :: 0 <= j < n - 1 ==> t.errors[j] == t.errors[..n - 1][j] && t.estimates[j] == t.estimates[..n - 1][j];
    t
  }

  /** One unfolding of the fold. */
  lemma RunUnfold(upd: Update, W0: seq<real>, d: seq<real>, x: seq<real>, n: nat)
    requires PreservesLength(upd)
    requires |W0| > 0 && 0 < n <= |d| && n <= |x|
    ensures Run(upd, W0, d, x, n) == Step(upd, Run(upd, W0, d, x, n - 1), d[n - 1], x[n - 1])
  {
    assert Run(upd, W0, d, x, n) == RunCons(upd, W0, d, x, n);
  }

  /**
   After `n > 0` samples the window is the reference window of sample
   `n - 1`: newest sample first, zero-padded past the start of the signal.
   */
  lemma {:induction false} RunWindow(upd: Update, W0: seq<real>, d: seq<real>, x: seq<real>, n: nat)
    requires PreservesLength(upd)
    requires |W0| > 0 && n <= |d| && n <= |x|
    ensures Run(upd, W0, d, x, n).window == if n == 0 then Zeros(|W0|) else Taps(x, n - 1, |W0|)
  {
    if n == 1 {
      PushFirst(x, |W0|);
    } else if n > 1 {
      RunWindow(upd, W0, d, x, n - 1);
      PushNext(x, n - 2, |W0|);
    }
  }

  /** Two sequences that agree below `n` and at `n` agree on their first `n + 1` elements. */
  lemma AppendAfterPrefix(s: seq<real>, t: seq<real>, n: nat)
    requires n < |s| && n + 1 == |t|
    requires s[..n] == t[..n] && s[n] == t[n]
    ensures s[..n + 1] == t
  {
    assert forall i :: 0 <= i < n ==> s[i] == s[..n][i] && t[i] == t[..n][i];
  }

  lemma PrefixOfPrefix<T>(s: seq<T>, k: nat, m: nat)
    requires m <= k <= |s|
    ensures s[..k][..m] == s[..m]
  {
  }

  /** Sample `n` only appends to the outputs of the first `n - 1` samples. */
  lemma RunExtends(upd: Update, W0: seq<real>, d: seq<real>, x: seq<real>, n: nat)
    requires PreservesLength(upd)
    requires |W0| > 0 && 0 < n <= |d| && n <= |x|
    ensures Run(upd, W0, d, x, n).errors[..n - 1] == Run(upd, W0, d, x, n - 1).errors
    ensures Run(upd, W0, d, x, n).estimates[..n - 1] == Run(upd, W0, d, x, n - 1).estimates
  {
    RunUnfold(upd, W0, d, x, n);
  }

  /**
   Sample `k` as the last step of the fold: it sees the window of sample
   `k`, predicts with the weights left by the samples before it, and adds
   the update for its own error.
   */
  lemma RunStep(upd: Update, W0: seq<real>, d: seq<real>, x: seq<real>, k: nat)
    requires PreservesLength(upd)
    requires |W0| > 0 && k < |d| && k < |x|
    ensures Run(upd, W0, d, x, k + 1).window == Taps(x, k, |W0|)
    ensures Run(upd, W0, d, x, k + 1).estimates[k] == Dot(Run(upd, W0, d, x, k).weights, Taps(x, k, |W0|))
    ensures Run(upd, W0, d, x, k + 1).weights
         == Add(Run(upd, W0, d, x, k).weights, upd(Run(upd, W0, d, x, k + 1).errors[k], Taps(x, k, |W0|)))
  {
    RunUnfold(upd, W0, d, x, k + 1);
    RunWindow(upd, W0, d, x, k + 1);
  }

  /** Later samples never rewrite what earlier ones produced. */
  lemma {:induction false} RunPrefix(upd: Update, W0: seq<real>, d: seq<real>, x: seq<real>, m: nat, n: nat)
    requires PreservesLength(upd)
    requires |W0| > 0 && m <= n <= |d| && n <= |x|
    ensures Run(upd, W0, d, x, n).errors[..m] == Run(upd, W0, d, x, m).errors
    ensures Run(upd, W0, d, x, n).estimates[..m] == Run(upd, W0, d, x, m).estimates
  {
    var t := Run(upd, W0, d, x, n);
    if m < n {
      var prev := Run(upd, W0, d, x, n - 1);
      var s := Run(upd, W0, d, x, m);
      assert prev.errors[..m] == s.errors && prev.estimates[..m] == s.estimates by {
        RunPrefix(upd, W0, d, x, m, n - 1);
      }
      assert t.errors[..n - 1] == prev.errors && t.estimates[..n - 1] == prev.estimates by {
        RunExtends(upd, W0, d, x, n);
      }
      PrefixOfPrefix(t.errors, n - 1, m);
      PrefixOfPrefix(t.estimates, n - 1, m);
    }
  }

  /** Sample `j` of a longer run is sample `j` of the run that stops right after it. */
  lemma RunSample(upd: Update, W0: seq<real>, d: seq<real>, x: seq<real>, n: nat, j: nat)
    requires PreservesLength(upd)
    requires |W0| > 0 && j < n <= |d| && n <= |x|
    ensures Run(upd, W0, d, x, n).estimates[j] == Run(upd, W0, d, x, j + 1).estimates[j]
    ensures Run(upd, W0, d, x, n).errors[j] == Run(upd, W0, d, x, j + 1).errors[j]
  {
    var t := Run(upd, W0, d, x, n);
    RunPrefix(upd, W0, d, x, j + 1, n);
    assert t.errors[j] == t.errors[..j + 1][j];
    assert t.estimates[j] == t.estimates[..j + 1][j];
  }

  /**
   The per-sample recurrence, read off a run of any length `n > j`: the
   estimate for sample `j` is the inner product of the weights held before
   sample `j` with the window of sample `j`, the error is `d[j]` minus it, and
   the weights after sample `j` are the weights before it plus the update
   for that error and window.
   */
  lemma Recurrence(upd: Update, W0: seq<real>, d: seq<real>, x: seq<real>, n: nat, j: nat)
    requires PreservesLength(upd)
    requires |W0| > 0 && j < n <= |d| && n <= |x|
    ensures Run(upd, W0, d, x, n).estimates[j] == Dot(Run(upd, W0, d, x, j).weights, Taps(x, j, |W0|))
    ensures Run(upd, W0, d, x, n).errors[j] == d[j] - Run(upd, W0, d, x, n).estimates[j]
    ensures Run(upd, W0, d, x, j + 1).weights
         == Add(Run(upd, W0, d, x, j).weights, upd(Run(upd, W0, d, x, n).errors[j], Taps(x, j, |W0|)))
  {
    RunStep(upd, W0, d, x, j);
    RunSample(upd, W0, d, x, n, j);
  }

  /** The output up to sample `n` depends only on the first `n` samples of `d` and `x`. */
  lemma {:induction false} RunIsCausal(upd: Update, W0: seq<real>, d: seq<real>, x: seq<real>,
                                       d': seq<real>, x': seq<real>, n: nat)
    requires PreservesLength(upd)
    requires |W0| > 0 && n <= |d| && n <= |x| && n <= |d'| && n <= |x'|
    requires d[..n] == d'[..n] && x[..n] == x'[..n]
    ensures Run(upd, W0, d, x, n) == Run(upd, W0, d', x', n)
  {
    if n > 0 {
      assert d[..n - 1] == d'[..n - 1] && x[..n - 1] == x'[..n - 1] by {
        PrefixOfPrefix(d, n, n - 1);
        PrefixOfPrefix(d', n, n - 1);
        PrefixOfPrefix(x, n, n - 1);
        PrefixOfPrefix(x', n, n - 1);
      }
      assert d[n - 1] == d'[n - 1] && x[n - 1] == x'[n - 1] by {
        assert d[n - 1] == d[..n][n - 1] && d'[n - 1] == d'[..n][n - 1];
        assert x[n - 1] == x[..n][n - 1] && x'[n - 1] == x'[..n][n - 1];
      }
      RunIsCausal(upd, W0, d, x, d', x', n - 1);
      RunUnfold(upd, W0, d, x, n);
      RunUnfold(upd, W0, d', x', n);
    }
  }

  /** The base rule, whose update is the zero vector, never moves the weights. */
  lemma {:induction false} BaseRuleWeights(W0: seq<real>, d: seq<real>, x: seq<real>, n: nat)
    requires |W0| > 0 && n <= |d| && n <= |x|
    ensures PreservesLength(BaseUpdate)
    ensures Run(BaseUpdate, W0, d, x, n).weights == W0
  {
    if n > 0 {
      BaseRuleWeights(W0, d, x, n - 1);
      RunStep(BaseUpdate, W0, d, x, n - 1);
      var t := Run(BaseUpdate, W0, d, x, n);
      var z := BaseUpdate(t.errors[n - 1], Taps(x, n - 1, |W0|));
      assert t.weights == Add(W0, z);
      assert t.weights == W0;
    }
  }

  /**
   With the base rule every estimate is the initial weights `W0` against the
   window of its sample: the filter stays a fixed FIR filter.
   */
  lemma BaseRuleKeepsWeights(W0: seq<real>, d: seq<real>, x: seq<real>, n: nat)
    requires |W0| > 0 && n <= |d| && n <= |x|
    ensures UpdateOf(BaseRule) == BaseUpdate
    ensures PreservesLength(BaseUpdate)
    ensures forall j :: 0 <= j < n ==> Run(BaseUpdate, W0, d, x, n).estimates[j] == Dot(W0, Taps(x, j, |W0|))
  {
    BaseRuleWeights(W0, d, x, 0);
    forall j | 0 <= j < n
      ensures Run(BaseUpdate, W0, d, x, n).estimates[j] == Dot(W0, Taps(x, j, |W0|))
    {
      Recurrence(BaseUpdate, W0, d, x, n, j);
      BaseRuleWeights(W0, d, x, j);
    }
  }

  /** Raised when a sample is written into a window of order 0. */
  datatype FilterError = EmptyWindow

  /** The `(error, noise_estimate)` pair the filter returns. */
  datatype Output = Output(error: seq<real>, noiseEstimate: seq<real>)

  /**
   `FilterModel.filter` without metrics. `W0` stands for the initial weights,
   so the order `N` is `|W0|`. A filter of order 0 fails on its first sample
   and succeeds, with empty outputs, only when there is none.
   */
  function Filter(upd: Update, W0: seq<real>, d: seq<real>, x: seq<real>, clean: seq<real>): (r: Result<Output, FilterError>)
    requires PreservesLength(upd)
    ensures r.Failure? <==> |W0| == 0 && CommonLength(d, x, clean) > 0
    ensures r.Success? ==> |r.value.error| == CommonLength(d, x, clean)
    ensures r.Success? ==> |r.value.noiseEstimate| == CommonLength(d, x, clean)
    ensures r.Success? ==> forall j :: 0 <= j < |r.value.error| ==> r.value.error[j] == d[j] - r.value.noiseEstimate[j]
  {
    var a := Truncate(d, x, clean);
    var n := |a.x|;
    if |W0| == 0 then
      if n == 0 then Success(Output([], [])) else Failure(EmptyWindow)
    else
      var t := Run(upd, W0, a.d, a.x, n);
      assert forall j :: 0 <= j < n ==> a.d[j] == d[j];
      Success(Output(t.errors, t.estimates))
  }

  /** On the untruncated signals, the filter returns exactly the fold over the common length. */
  lemma FilterIsRun(upd: Update, W0: seq<real>, d: seq<real>, x: seq<real>, clean: seq<real>)
    requires PreservesLength(upd)
    requires |W0| > 0
    ensures Filter(upd, W0, d, x, clean)
         == Success(Output(Run(upd, W0, d, x, CommonLength(d, x, clean)).errors,
                           Run(upd, W0, d, x, CommonLength(d, x, clean)).estimates))
  {
    var a := Truncate(d, x, clean);
    var n := CommonLength(d, x, clean);
    assert a.d[..n] == d[..n];
    assert a.x[..n] == x[..n];
    RunIsCausal(upd, W0, a.d, a.x, d, x, n);
  }

  /**
   The sample loop as the implementation writes it: zeroed output arrays and
   a zeroed window, then per sample roll the window, write the sample at
   index 0, store the estimate and the error, and add the update to `W`.
   */
  method SampleLoop(upd: Update, W0: seq<real>, d: seq<real>, x: seq<real>, numSamples: nat)
    returns (error: seq<real>, estimate: seq<real>)
    requires PreservesLength(upd)
    requires |W0| > 0 && numSamples <= |d| && numSamples <= |x|
    ensures error == Run(upd, W0, d, x, numSamples).errors
    ensures estimate == Run(upd, W0, d, x, numSamples).estimates
  {
    estimate := Zeros(numSamples);
    error := Zeros(numSamples);
    var window := Zeros(|W0|);
    var W := W0;
    var n := 0;
    ghost var t := Run(upd, W0, d, x, 0);
    while n < numSamples
      invariant 0 <= n <= numSamples
      invariant t == Run(upd, W0, d, x, n)
      invariant |estimate| == numSamples && |error| == numSamples
      invariant W == t.weights && window == t.window
      invariant estimate[..n] == t.estimates && error[..n] == t.errors
    {
      ghost var prev := t;
      window := Roll(window);
      window := window[0 := x[n]];
      var y := NoiseEstimate(W, window);
      estimate := estimate[n := y];
      var e := ErrorSample(d[n], y);
      error := error[n := e];
      W := Add(W, upd(e, window));
      t := Step(upd, prev, d[n], x[n]);
      assert t == Run(upd, W0, d, x, n + 1) by {
        RunUnfold(upd, W0, d, x, n + 1);
      }
      assert estimate[..n + 1] == t.estimates by {
        AppendAfterPrefix(estimate, t.estimates, n);
      }
      assert error[..n + 1] == t.errors by {
        AppendAfterPrefix(error, t.errors, n);
      }
      n := n + 1;
    }
    assert estimate == estimate[..numSamples] && error == error[..numSamples];
  }

  /** `FilterModel.filter` without metrics, as the implementation runs it. */
  method FilterLoop(upd: Update, W0: seq<real>, d: seq<real>, x: seq<real>, clean: seq<real>)
    returns (r: Result<Output, FilterError>)
    requires PreservesLength(upd)
    ensures r == Filter(upd, W0, d, x, clean)
  {
    var a := Truncate(d, x, clean);
    var numSamples := |a.x|;
    if |W0| == 0 {
      if numSamples == 0 {
        return Success(Output([], []));
      }
      return Failure(EmptyWindow);
    }
    var error, estimate := SampleLoop(upd, W0, a.d, a.x, numSamples);
    FilterIsRun(upd, W0, d, x, clean);
    RunIsCausal(upd, W0, a.d, a.x, d, x, numSamples);
    return Success(Output(error, estimate));
  }
}
