# Adaptive FIR noise cancellation, modelled in Dafny

This project models the core of an adaptive-filter noise-cancellation engine.
The engine is a streaming FIR filter. It keeps a weight vector `W` of `N` taps
and a window holding the `N` most recent samples of the noise reference `x`,
newest first. For every sample `n` it does three things:

- it predicts the noise as `y[n] = W . window`;
- it forms the error `e[n] = d[n] - y[n]`, which is the cleaned output;
- it adds the update rule's increment to `W` before the next sample is read.

Four pieces are modelled over exact `real`s, so floating-point rounding plays no part.

- **The streaming loop (`FilterModel`)**
  - `Truncate` is the two-step truncation of the input signals.
  - `Push` is the "roll, then write index 0" window step.
  - `Run` is the sample loop written as a fold.
  - `Filter` is the public `filter` call, returning `(error, noise_estimate)`.
  - `SampleLoop` and `FilterLoop` are the array-style loop as the implementation writes it. They are proved to compute exactly `Run` and `Filter`.
  - The update rule is a parameter of type `(real, seq<real>) -> seq<real>`.
  - The initial weights `W0` are a parameter, so the order `N` is `|W0|`.
- **The update rules (`UpdateRules`)**
  - the base class's zero update;
  - LMS, `mu * e * x`;
  - NLMS, `(mu / p) * e * x` with `p = 1e-6 + ||x||^2`.
- **The evaluation suite (`Metrics`)**
  - MSE as the code computes it, the square of the mean difference;
  - the finite part of SNR;
  - the shape of the dictionary `evaluation` returns.
- **The dispatch (`Dispatch`)**: `select_algorithm`, which maps six algorithm identifiers to streaming or block filter kinds.

`Vectors` holds the numpy operations the engine uses: zeros, elementwise sum, difference and scaling, the inner product, sum and mean. It also holds their algebra. `Wrappers` holds `Option` and `Result`. A `Failure` stands for an exception the source raises.

Where the documentation and the code disagree, the model follows the code:

- **MSE.** The docstring of `EvaluationSuite.MSE` promises the mean of the squared differences. The code squares the mean of the differences. `Metrics.Mse` is the code's figure. `Metrics.MeanSquaredError` is the documented figure. `MseAtMostMeanSquaredError` proves the computed figure never exceeds the documented one. `MseIsNotMeanSquaredError` shows an input where they differ (`0` against `1`).

Two further consequences of the code are worth knowing:

- **SNR of identical signals.** A signal measured against itself has power ratio `p / (p + 1e-10)`, where `p` is its mean power. The `1e-10` floor is added to the noise power only, so the ratio is below one. It is close to one, about 0 dB, only when `p` is far above `1e-10`. A silent signal has ratio `0`, so the logarithm's argument is `1e-10` and the SNR is -100 dB (`SnrRatioOfSelf`, `SnrRatioOfSilentSignal`). A large but finite ratio comes from silent noise instead (`SnrRatioOfSilentNoise`).
- **Filter of order 0.** Writing a sample into an empty window raises an index error. So a filter of order `0` fails as soon as there is a sample to process (`EmptyWindow`).

## Model

| member | source | states |
|---|---|---|
| FilterModel.Prefix | adaptive_filter/filter_models/filter_model.py:107-112 | Python's clamping slice `s[:k]`: the result has length `min(len s, k)` and is a prefix of `s` |
| FilterModel.Truncate | adaptive_filter/filter_models/filter_model.py:107-115 | after cutting `x` to `len d` and then `d`, `x` to `len clean`, the number of samples is `min(len d, len x, len clean)`; `d` and `x` stay prefixes of the inputs and `clean` is untouched |
| FilterModel.Roll | adaptive_filter/filter_models/filter_model.py:131 | `np.roll(w, 1)` keeps the length, moves the last tap to the front and every other tap one place later |
| FilterModel.Push | adaptive_filter/filter_models/filter_model.py:131-133 | roll then write index 0 is a shift register: the new sample in front, followed by the old window without its last tap |
| FilterModel.PushFirst | adaptive_filter/filter_models/filter_model.py:125-133 | pushing `x[0]` into the zeroed buffer gives the reference window of sample 0 |
| FilterModel.PushNext | adaptive_filter/filter_models/filter_model.py:131-133 | pushing `x[n+1]` into the window of sample `n` gives the window of sample `n+1` |
| FilterModel.NoiseEstimate | adaptive_filter/filter_models/filter_model.py:20-29 | `noise_estimate` is the position-aligned inner product of weights and window, the same whichever operand comes first; all-zero weights predict `0` |
| FilterModel.ErrorSample | adaptive_filter/filter_models/filter_model.py:31-41 | `error` is `d[n] - y[n]`: adding the noise estimate back to the error gives the desired sample |
| FilterModel.Step | adaptive_filter/filter_models/filter_model.py:131-143 | one loop pass appends exactly one estimate and one error and leaves earlier entries alone; the estimate is the pre-update weights against the new window, the error is `d[n]` minus it, and the new weights are the old ones plus the rule's update for that error and window |
| FilterModel.Run | adaptive_filter/filter_models/filter_model.py:121-143 | after `n` samples there are `n` estimates and `n` errors with `error[j] = d[j] - estimate[j]`, and weights and window both keep length `N` |
| FilterModel.RunUnfold | adaptive_filter/filter_models/filter_model.py:129-143 | the run over `n > 0` samples is one loop pass applied to the run over the first `n - 1` |
| FilterModel.RunWindow | adaptive_filter/filter_models/filter_model.py:125-133 | after sample `n` the window is `x[n], x[n-1], ...` newest first, zero-padded where it reaches before the start of `x`; before any sample it is all zero |
| FilterModel.RunExtends | adaptive_filter/filter_models/filter_model.py:136-140 | processing one more sample leaves every earlier estimate and error unchanged |
| FilterModel.RunStep | adaptive_filter/filter_models/filter_model.py:131-143 | sample `k` is predicted with the weights left by samples `0..k-1`, on the window of sample `k`, and the weights after it are those plus the update for its own error |
| FilterModel.RunPrefix | adaptive_filter/filter_models/filter_model.py:129-140 | the first `m` outputs of a run of any length `n >= m` are the outputs of the run over `m` samples |
| FilterModel.RunSample | adaptive_filter/filter_models/filter_model.py:136-140 | output `j` of a longer run is output `j` of the run that stops right after sample `j` |
| FilterModel.Recurrence | adaptive_filter/filter_models/filter_model.py:136-143 | in any run, `noise_estimate[j] = W_j . window_j`, `error[j] = d[j] - noise_estimate[j]` and `W_{j+1} = W_j + update(error[j], window_j)` |
| FilterModel.RunIsCausal | adaptive_filter/filter_models/filter_model.py:129-143 | the outputs and state after `n` samples depend only on the first `n` samples of `d` and `x` |
| FilterModel.BaseRuleWeights | adaptive_filter/filter_models/filter_model.py:53 | with the base class's zero update the weights stay `W0` after any number of samples |
| FilterModel.BaseRuleKeepsWeights | adaptive_filter/filter_models/filter_model.py:143 | with the base update every estimate is `W0 . window_j`: the filter is a fixed FIR filter |
| FilterModel.Filter | adaptive_filter/filter_models/filter_model.py:107-147 | `filter` without metrics fails exactly when the order is 0 and there is a sample to process; otherwise it returns `(error, noise_estimate)` of the common length with `error[j] = d[j] - noise_estimate[j]` |
| FilterModel.FilterIsRun | adaptive_filter/filter_models/filter_model.py:107-147 | on success the output is exactly the fold over the first `min(len d, len x, len clean)` samples of the untruncated signals |
| FilterModel.SampleLoop | adaptive_filter/filter_models/filter_model.py:121-143 | the loop over preallocated zero arrays with roll and write produces exactly the fold's errors and estimates |
| FilterModel.FilterLoop | adaptive_filter/filter_models/filter_model.py:88-147 | the imperative `filter` returns the same result as the functional `Filter` |
| UpdateRules.BaseUpdate | adaptive_filter/filter_models/filter_model.py:53 | the base `update_step` is an all-zero vector as long as the window |
| UpdateRules.LmsUpdate | tests/algorithms/test_lms.py:12-22 | the LMS update has the window's length |
| UpdateRules.LmsDirection | tests/algorithms/test_lms.py:12-14 | each LMS component is `mu * e * x[i]`; a zero error or a zero step size gives a zero update |
| UpdateRules.LmsUnitCases | tests/algorithms/test_lms.py:9-22 | the three parametrised cases hold exactly: `(0.5, 2, [1,-1]) -> [1,-1]`, `(1, 1, [5,2]) -> [5,2]` and `(-1, 1, [0.5,0.25]) -> [-0.5,-0.25]` |
| UpdateRules.LmsAPosteriori | adaptive_filter/filter_models/filter_model.py:136-143 | after an LMS step on window `x`, the prediction on that window moves by `mu * e * ||x||^2` |
| UpdateRules.NlmsPower | adaptive_filter/algorithms/nlms.py:12-25 | `p = eps + ||x||^2` is at least `eps = 1e-6`, so it is never zero, and it equals `eps` on an all-zero window |
| UpdateRules.NlmsUpdate | adaptive_filter/algorithms/nlms.py:26 | the NLMS update has the window's length |
| UpdateRules.NlmsIsNormalisedLms | adaptive_filter/algorithms/nlms.py:25-26 | the NLMS update is the LMS update with step size `mu / p` |
| UpdateRules.NlmsDirection | adaptive_filter/algorithms/nlms.py:25-26 | each NLMS component is `(mu / p) * e * x[i]`, so the update is a multiple of the window; a zero error or an all-zero window gives a zero update, the latter with `p = eps` |
| UpdateRules.NlmsAPosteriori | adaptive_filter/algorithms/nlms.py:25-26 | after an NLMS step on window `x`, the prediction on that window moves by `mu * e * ||x||^2 / p` with `0 <= ||x||^2 < p`: a fraction of `mu * e` below one, whatever the amplitude |
| UpdateRules.NlmsUnitCase | adaptive_filter/algorithms/nlms.py:25-26 | for `x = [3, 4]` and `mu = e = 1`: `p = 25.000001` and the update is `[3/25.000001, 4/25.000001]` |
| UpdateRules.UpdateOf | tests/algorithms/test_lms.py:19-22 | every rule (base, LMS, NLMS) returns an update as long as the window it is given |
| Metrics.Mse | adaptive_filter/utils/evaluation.py:29 | the computed MSE, `mean(a - b)` squared, is never negative |
| Metrics.MseSelfZero | adaptive_filter/utils/evaluation.py:29 | a signal against itself has MSE `0` |
| Metrics.MseSymmetric | adaptive_filter/utils/evaluation.py:29 | `MSE(a, b) = MSE(b, a)` |
| Metrics.MseConstantOffset | adaptive_filter/utils/evaluation.py:29 | signals that differ by `c` at every sample have MSE `c^2` |
| Metrics.MseOfMeans | adaptive_filter/utils/evaluation.py:29 | the computed MSE is `(mean a - mean b)^2` |
| Metrics.MseAtMostMeanSquaredError | adaptive_filter/utils/evaluation.py:19-29 | the computed figure is at most the mean of squared differences the docstring describes |
| Metrics.MseIsNotMeanSquaredError | adaptive_filter/utils/evaluation.py:19-29 | differences `1, -1` give a computed MSE of `0` but a mean squared difference of `1` |
| Metrics.MeanPower | adaptive_filter/utils/evaluation.py:44-45 | `mean(s^2)` is never negative |
| Metrics.SnrRatio | adaptive_filter/utils/evaluation.py:44-47 | `signal_power / (noise_power + 1e-10)` is non-negative, and multiplied back by its denominator it gives the signal power |
| Metrics.SnrLogArgument | adaptive_filter/utils/evaluation.py:47-48 | the argument of `log10`, `ratio + 1e-10`, is at least `1e-10`, so the logarithm is always defined |
| Metrics.SnrRatioOfSelf | adaptive_filter/utils/evaluation.py:44-47 | a signal measured against itself has power ratio `p / (p + 1e-10)` for its mean power `p`, which is always below one |
| Metrics.SnrRatioOfSilentSignal | adaptive_filter/utils/evaluation.py:44-48 | an all-zero signal has power ratio `0` against any noise, so the logarithm's argument is exactly `1e-10` |
| Metrics.SnrRatioOfSilentNoise | adaptive_filter/utils/evaluation.py:44-47 | against all-zero noise the ratio is the signal power over `1e-10`: large but finite |
| Metrics.Evaluation | adaptive_filter/utils/evaluation.py:98-114 | `evaluation` always yields one MSE entry, `MSE(desired, input)`; it yields one SNR entry exactly when the algorithm is `"LMS"` and none otherwise; it raises exactly when `"LMS"` is asked for without a clean signal or an error output |
| Dispatch.StreamingTable | adaptive_filter/evaluation.py:99-103 | the streaming table has exactly the keys `LMS`, `NLMS` and `RLS` |
| Dispatch.BlockTable | adaptive_filter/evaluation.py:105-109 | the block table has exactly the keys `APA`, `FDLMS` and `FDNLMS` |
| Dispatch.SelectAlgorithm | adaptive_filter/evaluation.py:112-132 | it raises the unknown-algorithm error exactly for identifiers outside the six; otherwise it returns the filter registered under that name, built with the caller's `mu` and order (and block size for block filters), which is streaming exactly for `LMS`, `NLMS` and `RLS` |
| Dispatch.TablesDisjoint | adaptive_filter/evaluation.py:99-109 | the two tables share no key and together cover the six identifiers |
| Dispatch.SelectNameOf | adaptive_filter/evaluation.py:99-126 | selecting any filter kind by its own name and parameters returns that very filter |
| Dispatch.SelectIsCaseSensitive | adaptive_filter/evaluation.py:112-117 | `"lms"` is rejected while `"LMS"` gives a streaming LMS filter |
| Dispatch.RuleOf | adaptive_filter/evaluation.py:100-102 | an LMS filter has a rule whose update is `LmsUpdate` with the filter's `mu`, an NLMS filter one whose update is `NlmsUpdate` with its `mu`; RLS and the block kinds have no rule in this model |
| Dispatch.SelectedRule | adaptive_filter/evaluation.py:99-117 | the filter selected for `"LMS"` computes the LMS update `mu * e * x` with the caller's `mu`, and the one selected for `"NLMS"` computes the NLMS update with the caller's `mu` |

## Left out

- Random weight initialisation (`np.random.normal` scaled by `0.001`). The initial weights are a parameter `W0` of any length, and the order `N` is `|W0|`.
- The `ndim != 1` checks after `ravel()`. `ravel` always yields a one-dimensional array, so they never fire.
- Wall-clock timing (`time.perf_counter`).
- The `return_metrics=True` branch of `filter`. It calls `signal_reshaper` and `convergence_time` from `adaptive_filter.utils.metrics`, which is not part of this model.
- The `self.p` attribute NLMS stores as a side effect. Only the returned update is modelled.
- The LMS class itself is not part of this model. Its rule `mu * e * x` is the one the unit tests fix.
- The RLS, APA, FDLMS and FDNLMS classes and the `BlockFilterModel` loop are not part of this model. The dispatch returns them as tags carrying their parameters. Any error their constructors might raise is not modelled either.
- The dispatch prints the chosen parameters. That console output is left out.
- Dispatch.SelectAlgorithm: the identifier is a `string`. A `None` identifier is found in neither table and raises like any unknown name, so it is not a separate case.
- `SNR`'s `10 * log10(...)`: a transcendental function over reals. The model keeps its argument and proves the argument positive.
- `lms_convergence_rate`: it depends on an eigen-decomposition that is not part of this model, and `evaluation` does not call it.
- Metrics.Evaluation: the `step_size` and `time_k` arguments are not taken, because `evaluation` never uses them.
- Metrics.Evaluation requires `desired` and `input` to be non-empty and of equal length, and any given clean signal or error output to be non-empty. On an empty array numpy returns NaN with a warning, and arrays of different lengths go through numpy broadcasting. Neither is modelled.
- Metrics.Mse requires non-empty inputs of equal length, for the same reason.
- A negative `filter_order` is not modelled: the order is the length of `W0`.
- IEEE double arithmetic: rounding, overflow, NaN and infinities. All results are about exact reals.
- Data loading, audio I/O, noise simulation, the adaptive line enhancer and CSV and console reporting.
