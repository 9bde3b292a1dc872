# Covariance uncertainty in portfolio risk

This project is a Dafny model of the numeric core of a Streamlit application
about worst-case portfolio risk when the covariance matrix is uncertain.

It models two pieces:

- **`analyze_covariance_uncertainty`** (module `CovarianceUncertainty`).
  - It runs an ordered chain of input checks. Each failing check raises its
    own `ValueError`, which the model returns as an `Err` value:
    1. the covariance matrix is square;
    2. the weight vector has matching length;
    3. the diagonal is non-negative;
    4. the uncertainty level is non-negative;
    5. the weight sum is non-zero;
    6. the weight sum is close to one, under `np.isclose` with `atol = 1e-8`
       and the default `rtol = 1e-5`.
  - When every check passes, it returns the closed-form worst-case standard
    deviation `sqrt(max(p + 2 u sqrt(p) |w|^2 + (u |w|^2)^2, 0))`, where
    `p = w^T Sigma w`.
  - The lemmas prove three things about that result:
    - it equals `sqrt(p) + u |w|^2`;
    - with `u = 0` it is the nominal risk;
    - it never decreases as `u` grows.
- **The Monte-Carlo covariance perturbation loop**, which the application
  repeats in four places.
  - Each iteration does five steps:
    1. take a drawn `n` by `n` matrix;
    2. keep its upper triangle with the diagonal (`np.triu`);
    3. mirror it with `D + D^T - diag(diag(D))`;
    4. add it to the nominal covariance;
    5. take the quadratic form `w^T Sigma_sample w`.
  - The steps are methods over `array2<real>` with nested loops, in module
    `MatrixArrays`. Each is proved to compute a value-level specification
    function from module `Matrices`.
  - The accumulation loops come in two kinds:
    - module `Sampling` holds the loop that appends every variance;
      `CovarianceVisualizer`, `Page1` and `Page2` use it;
    - module `RiskAnalysisPage` holds the loop that appends the standard
      deviation and skips draws whose variance is negative.

Two behaviours follow the code rather than its comments or the constraints
used elsewhere in the application:

- **The diagonal is kept.** The mirrored perturbation keeps the drawn
  diagonal; it is not zeroed.
  - `Matrices.SymmetrizedEntries` proves this.
  - `RiskAnalysisPage.SampledPerturbationCanBeInfeasible` shows a sampled
    perturbation that breaks the worst-case problem's `diag(Delta) == 0`
    constraint.
- **There is no positive-semidefinite check.** Nothing checks that
  `Sigma_sample` is positive semidefinite, whatever the comment at
  definitions/None.py:50 says.
  - `RiskAnalysisPage.SampleVarianceCanBeNegative` exhibits a negative
    recorded variance.

Exact square roots have no executable definition over Dafny's reals. So
every member that takes a root receives it as a parameter `sqrt`, and
`RealSqrt.IsSqrt(sqrt)` requires it to be the non-negative square root on
non-negative arguments. The random draws and the optimised weights are
inputs.

## Model

| member | source | states |
|---|---|---|
| CovarianceUncertainty.AnalyzeCovarianceUncertainty | definitions/definitions.py:29-63 | Each check, in order, yields its own error once the earlier checks pass. The result is `Ok` exactly when all checks pass, and an `Ok` result is non-negative. |
| CovarianceUncertainty.MessagesIdentifyErrors | definitions/definitions.py:30-51 | Each `ValueError` message belongs to exactly one check, so the message tells which check failed. |
| CovarianceUncertainty.WorstCaseRiskClosedForm | definitions/definitions.py:54-63 | For valid input with `p >= 0`, the clamped root of the expanded worst-case variance is exactly `sqrt(p) + u * |w|^2`. |
| CovarianceUncertainty.NoUncertaintyGivesNominalRisk | definitions/definitions.py:59-63 | With uncertainty level 0 the result is the nominal standard deviation `sqrt(p)`. |
| CovarianceUncertainty.WorstCaseMonotoneInUncertainty | definitions/definitions.py:59-63 | The result is never below `sqrt(p)`, and it does not decrease as the uncertainty level grows. |
| Matrices.SymmetrizedEntries | definitions/None.py:46-47 | After `triu` and mirroring, entries on and above the diagonal equal the draw, and entries below mirror the draw's upper triangle. The diagonal keeps the drawn value. |
| Matrices.SymmetrizedIsSymmetric | definitions/None.py:46-47 | The mirrored perturbation is symmetric. |
| Matrices.SymmetrizedBounded | definitions/None.py:45-47 | Draws within `[-delta, delta]` give a perturbation within `[-delta, delta]` entry by entry. |
| Matrices.SymmetrizedOfSymmetric | definitions/None.py:46-47 | Symmetrising an already symmetric draw returns it unchanged. |
| Matrices.SymmetrizedZeroDiagonalIff | pages/03_Risk_Analysis.py:51-52 | The perturbation has a zero diagonal if and only if the draw has one. |
| Matrices.QuadFormAdd | definitions/None.py:48-53 | The variance under `Sigma_nom + Delta_sample` is the nominal variance plus the variance under `Delta_sample`. |
| Matrices.SampleVarianceOfZeroDraw | definitions/None.py:45-54 | An all-zero draw makes the sampled variance equal the nominal variance `w^T Sigma_nom w`. |
| MatrixArrays.Triu | definitions/None.py:46 | The new array holds the upper triangle of the draw, diagonal included, and zeros below it. |
| MatrixArrays.Mirror | definitions/None.py:47 | The new array is `D + D^T - diag(diag(D))` of its input, entry by entry. |
| MatrixArrays.Add | definitions/None.py:48 | The new array is the element-wise sum of the two inputs, with the same shape. |
| MatrixArrays.QuadraticForm | definitions/None.py:52-53 | The nested loop returns `w^T S w`, the row-by-row quadratic form of the array's contents. |
| Sampling.PerturbedVariance | application_pages/page1.py:72-76 | One iteration returns the quadratic form of `Sigma_nom + mirror(triu(draw))`. |
| Sampling.SampleVariances | application_pages/page2.py:43-49 | The loop appends one variance per draw, in draw order, each the sampled variance of its draw, with no rejection. |
| CovarianceVisualizer.RiskSamples | definitions/None.py:42-56 | `risks` has exactly 100 entries, one per iteration in order, each the sampled variance without a root. The `try` block never raises, so nothing is dropped. |
| Page1.RiskSamples | application_pages/page1.py:69-77 | `risks` has exactly 100 entries, in iteration order, each `w^T Sigma_sample w`. Negative values are recorded too. |
| Page1.NominalStdDev | application_pages/page1.py:64 | The displayed value is a non-negative root of `w^T Sigma_nom w`. It is missing (`nan`) exactly when that variance is negative. |
| Page2.RiskSamples | application_pages/page2.py:41-49 | `risks` has exactly 100 entries, in iteration order, each `w^T (Sigma_nom + Delta_sample) w`. |
| RiskAnalysisPage.NominalRisk | pages/03_Risk_Analysis.py:25 | The nominal risk is a non-negative root of `w^T Sigma_nom w`. `math.sqrt` fails exactly when that variance is negative. |
| RiskAnalysisPage.StdDevSamples | pages/03_Risk_Analysis.py:47-58 | After the loop, `len(risks)` plus the number of draws with negative variance is the number of draws, and every recorded value is non-negative. |
| RiskAnalysisPage.RecordStdDev | pages/03_Risk_Analysis.py:50-58 | One pass of the loop body appends the root of the draw's variance. When the variance is negative, `math.sqrt` raises, the `except` swallows it, and `risks` stays as it was. |
| RiskAnalysisPage.StdDevSamplesStep | pages/03_Risk_Analysis.py:54-58 | A draw with negative variance appends nothing and the loop goes on. Any other draw appends the root of its variance. |
| RiskAnalysisPage.AllKeptWithoutNegativeVariance | pages/03_Risk_Analysis.py:49-58 | When no draw has negative variance, every draw is kept, in order, as the root of its variance. |
| RiskAnalysisPage.ZeroDeltaGivesNominalRisk | pages/03_Risk_Analysis.py:47-58 | With `delta = 0`, every draw records the nominal standard deviation, once per draw. |
| RiskAnalysisPage.SampleStdDevs | pages/03_Risk_Analysis.py:47-58 | The imperative loop over 100 draws produces exactly the sequence `StdDevSamples` describes, so at most 100 values. |
| RiskAnalysisPage.NoPerturbationIsFeasible | pages/03_Risk_Analysis.py:32-38 | For a symmetric positive semidefinite nominal matrix and `delta >= 0`, the zero perturbation meets every constraint of the worst-case problem. The constraints include symmetry of `Sigma_nom + Delta`, which the `PSD=True` variable it must equal imposes. |
| RiskAnalysisPage.PageNominalIsWellBehaved | pages/03_Risk_Analysis.py:13-25 | The page's `Sigma.T.dot(Sigma)` gives every portfolio a non-negative variance, so the nominal `math.sqrt` succeeds. The matrix is also symmetric, so the zero perturbation meets every worst-case constraint, symmetry included. |
| RiskAnalysisPage.FeasibleSampleHasZeroDrawnDiagonal | pages/03_Risk_Analysis.py:37-52 | A sampled perturbation meets the zero-diagonal constraint only if the drawn diagonal is already zero. |
| RiskAnalysisPage.SampledPerturbationCanBeInfeasible | pages/03_Risk_Analysis.py:50-52 | The draw `[[0.1]]` lies within `delta = 0.2`, yet its perturbation breaks the worst-case constraints. |
| RiskAnalysisPage.SampleVarianceCanBeNegative | definitions/None.py:50-54 | The draw `[[-0.1]]` lies within `delta = 0.2`. With zero nominal covariance it gives variance `-0.1`, because no positive-semidefinite check exists. |
| NominalCovariance.GramIsSymmetric | pages/03_Risk_Analysis.py:13-14 | `Sigma.T.dot(Sigma)` is symmetric. |
| NominalCovariance.GramIsPositiveSemidefinite | pages/03_Risk_Analysis.py:13-14 | `Sigma.T.dot(Sigma)` is positive semidefinite: it is symmetric, and `w^T Sigma_nom w >= 0` for every `w`. |
| RealSqrt.StdDev | pages/03_Risk_Analysis.py:55-56 | The root exists exactly for a non-negative variance, and it is a non-negative number whose square is the variance. |

## Left out

- **Solver calls.** The cvxpy solves are foreign solver calls and are not modelled:
  - the minimum-variance portfolio problem;
  - the worst-case semidefinite problem in definitions/None.py and pages/03_Risk_Analysis.py.

  Only the worst-case problem's constraint list is stated, as `RiskAnalysisPage.WorstCaseFeasible`. The optimised weights `w.value` are an input.
- **Randomness.** `np.random.seed`, `uniform` and `randn` are inputs: the draws are a sequence of matrices.
- **Display code.** Streamlit and Plotly rendering is not modelled. This covers the app and overview pages, the histogram and image wrappers, the constant-string problem placeholder and the re-exporting `main.py`.
- **Python runtime checks.** The type checks and the NaN and finiteness checks in `analyze_covariance_uncertainty` have no counterpart over typed Dafny reals.
- **Duplicate definition.** The second definition at definitions/definitions.py:68-127 is identical to the first and is modelled once.
- **Floating-point arithmetic.** Every computation is over exact reals. Rounding is not modelled, and neither is the order of summation inside `w^T S w` or `np.sum`.
- **Square root.** The square root is a parameter. Any function meeting `RealSqrt.IsSqrt` may be supplied, and no concrete root is defined.
- CovarianceUncertainty.AnalyzeCovarianceUncertainty: requires the nominal variance `w^T Sigma w` to be non-negative on valid input. For a negative variance the source's `np.sqrt` yields `nan`, and `max(nan, 0)` stays `nan`; that floating-point path is not modelled.
- CovarianceVisualizer.RiskSamples: models the `except` branch of the loop as unreachable. When the solver leaves `w.value` as `None`, `cp.quad_form(w.value, Sigma)` at definitions/None.py:32 already fails before the loop starts, so inside the loop `w.value.reshape` always succeeds.
- Page1.NominalStdDev: the `cp.quad_form(...).value` expression is modelled as the plain quadratic form.
- **Tests.** Functions that only the tests import from modules outside the repository are not part of this model.
- **Unmodelled code paths.** No positive-semidefinite, eigenvalue or Cholesky check is modelled, because the code performs none.
