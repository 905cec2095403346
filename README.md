# Black-Litterman allocator

A Dafny model of the `BlackLitterman` class in `model.py`. The class turns market
weights, a covariance matrix and investor views into posterior returns, a posterior
covariance and maximum-Sharpe portfolio weights.

`allocate` runs these stages in order:

1. Validate the views, the pick list, the omega method and the confidences.
2. Compute the implied equilibrium returns, pi = delta Sigma w.
3. Build the K x N pick matrix P from one asset-to-coefficient map per view.
4. Take the view-uncertainty matrix omega, or derive it, and force it diagonal. It is
   derived either from prior variance or from Idzorek confidences.
5. Compute the posterior expected returns and the posterior covariance.
6. Normalise inv(Sigma_post) pi_post to sum to one.

The object's four result fields are overwritten as each stage completes.

The project has three modules:

- `Wrappers` (`wrappers.dfy`) holds `Option` (Python's `None`) and `Result`.
- `Matrices` (`matrices.dfy`) holds dense real vectors and matrices. It has the numpy
  operations the pipeline uses: `dot`, `.T`, `np.diag(np.diag(.))`, `np.reshape`, `sum`
  and scalar arithmetic. It also holds the algebra the proofs need: associativity of
  products, identities, uniqueness of inverses, and row-major flatten and reshape.
- `Model` (`model.dfy`) holds each stage as a function of its inputs and `Pipeline`,
  their composition. It also holds the class `BlackLitterman`, whose methods change the
  fields in place. The imperative parts of the source stay imperative:
  - `_error_checks` scans the confidences in a loop.
  - `_create_pick_matrix` fills an `array2<real>` in place, view by view and key by key.
  - The max-Sharpe step sums an array and divides it in place.
  - `Allocate` assigns the fields stage by stage.

Each method is proved equal to the function that specifies it. The properties are
proved about those functions.

Matrix inversion is a parameter `inv: Matrix -> Matrix`. `Invert` accepts `inv(m)` only
when it is a two-sided inverse of `m`; otherwise the stage fails with `SingularMatrix`.
Whether a stage succeeds is therefore stated relative to the supplied inverter. A
*sound* inverter (`SoundInverter`) is one that inverts every nonsingular matrix, as
exact inversion does. For a sound inverter, `SingularMatrix` occurs exactly when the
matrix is singular (`InvertFailsIffSingular`). Two sound inverters give the same
allocation (`PipelineIndependentOfInverter`).

The model follows the code's check, not its error message: a confidence of 0 passes
(`ConfidenceChecks`).

The model departs from the code for numeric faults, which numpy leaves as NaN/Inf or
LinAlgError: `ZeroConfidence`, `ZeroWeightSum`, `SingularMatrix`.

## Model

| member | source | states |
|---|---|---|
| Model.ValidationError | model.py:193-220 | Exactly the inputs valid in every respect give no error. Otherwise the first failing check fixes the error: view count, omega method, missing confidences, confidence count, negative confidence. |
| Model.ErrorChecks | model.py:205-220 | The checks in source order, with the loop over the confidences, return exactly `ValidationError`. |
| Model.InvalidInputsComputeNothing | model.py:18 | Invalid inputs stop `allocate` before any result is computed. The error is the validation error. A view count that differs from the pick-list length gives ViewCountMismatch. A method other than the two supported gives UnknownOmegaMethod. |
| Model.ConfidenceChecks | model.py:211-220 | In user_confidences mode, missing confidences, a wrong confidence count and a negative confidence are each an error. Non-negative confidences, zero included, pass. |
| Model.IndexOf | model.py:140 | The column pandas selects for an asset label: its first position in the names. |
| Model.FirstUnknownView | model.py:137-140 | The first view whose pick names an asset outside the universe. Every earlier view is fully known. None means all are known. |
| Model.PickMatrix | model.py:123-141 | Succeeds iff there are N names and every view names only known assets. The result is K x N. UnknownAsset(k) points at a view with an unknown asset, and all views before it are known. |
| Model.CreatePickMatrix | model.py:135-141 | The in-place fill of a K x N zero array, view by view and key by key, gives exactly `PickMatrix`, errors included. |
| Model.PickMatrixEntries | model.py:135-141 | Row k holds view k's coefficient at the column of each asset it names and 0 at every other column. |
| Model.DefaultAssetNames | model.py:26 | `list(map(str, range(N)))` has N names. |
| Model.NatToStringInjective | model.py:26 | Distinct numbers have distinct decimal strings. |
| Model.DefaultAssetNamesDistinct | model.py:26 | The default asset names are pairwise distinct. |
| Model.ImpliedEquilibriumReturns | model.py:110-121 | pi_i = delta * sum_j Sigma[i][j] w[j], one entry per asset. |
| Model.ReverseOptimisation | model.py:121 | For an invertible Sigma, inv(Sigma) pi = delta w, so reverse optimisation recovers the market weights. |
| Model.PriorVarianceOmega | model.py:157 | P (tau Sigma) P' is K x K, and its diagonal entry k is tau (p_k Sigma p_k'). |
| Model.PriorVarianceDiagonal | model.py:157 | Diagonal entry k of P (tau Sigma) P' is tau times the quadratic form of row k of P. |
| Model.IdzorekOmega | model.py:163-178 | Succeeds iff K = N (for the reshape of the confidences) and no confidence is zero; otherwise ConfidenceShapeMismatch or ZeroConfidence. Diagonal entry k is ((1 - c_k) / c_k) (p_k Sigma p_k'). |
| Model.IdzorekDiagonal | model.py:177 | Diagonal entry k of P Sigma P' is the quadratic form of row k of P. |
| Model.CalculateOmega | model.py:143-161 | The result is K x K and diagonal. In prior_variance mode the stage always succeeds, with entry k equal to tau (p_k Sigma p_k'). Any other method succeeds iff K = N and no confidence is zero, with entry k equal to alpha(c_k) (p_k Sigma p_k'). |
| Model.ReshapeOmega | model.py:39 | `np.reshape(omega, (K, K))` succeeds iff omega is rectangular (not ragged) and has K*K entries; otherwise OmegaShapeMismatch. The result is K x K with the same entries in row-major order. |
| Model.RaggedOmegaRejected | model.py:39 | A ragged omega such as [[1.0], [2.0, 3.0, 4.0]] is refused for K = 2 although it holds 4 entries. |
| Model.ViewOmega | model.py:37-39 | The omega given, or the derived one, reshaped: when it succeeds it is K x K. |
| Model.SuppliedOmegaUsedAsGiven | model.py:37-39 | A supplied K x K omega is used exactly as given, whatever the method. |
| Model.DerivedOmegaKeepsShape | model.py:37-39 | Without a supplied omega, the reshape leaves `_calculate_omega`'s result, or its error, unchanged. |
| Model.PriorVarianceOmegaNonnegative | model.py:156-161 | For a positive semi-definite Sigma and tau >= 0, every entry of the prior-variance omega is non-negative. |
| Model.FullConfidenceHasNoUncertainty | model.py:176-177 | A view held with confidence 1 gets zero uncertainty in Idzorek mode. |
| Model.IdzorekUncertaintyMonotone | model.py:176 | For 0 < c1 <= c2 and non-negative prior variance, alpha(c1) q >= alpha(c2) q: more confidence never adds uncertainty. |
| Model.Invert | model.py:73 | An accepted answer is a two-sided inverse. A rejected one is not, and the error is SingularMatrix. |
| Model.InvertFailsIffSingular | model.py:73 | For a sound inverter, inversion fails iff the matrix has no two-sided inverse. |
| Model.InvertIndependentOfInverter | model.py:90 | Two inverters that both succeed on a matrix give the same inverse. |
| Model.SoundInvertersAgree | model.py:73 | Two sound inverters give the same inversion result on every matrix, errors included. |
| Model.ViewCovariance | model.py:90 | P (tau Sigma) P' + omega is K x K. |
| Model.ViewGain | model.py:89 | (tau Sigma) P' is N x K. |
| Model.PosteriorExpectedReturns | model.py:77-92 | Succeeds iff the supplied inverter inverts P (tau Sigma) P' + omega, giving one return per asset. |
| Model.PosteriorCovariance | model.py:94-108 | Succeeds iff the supplied inverter inverts the same matrix, giving an N x N matrix. |
| Model.PosteriorSucceedsIffNonsingular | model.py:90 | For a sound inverter, both posterior stages succeed iff P (tau Sigma) P' + omega is nonsingular. |
| Model.PosteriorReturnsWithoutViews | model.py:89-90 | With no views the posterior returns are the equilibrium returns. |
| Model.PosteriorReturnsAgreeingViews | model.py:89-90 | Views equal to P pi leave the returns at pi. |
| Model.PosteriorHonoursCertainViews | model.py:89-90 | With omega = 0 the posterior returns meet the views exactly, P pi_post = Q. |
| Model.PosteriorCovarianceCertainViews | model.py:106-107 | With omega = 0, P Sigma_post u = P Sigma u for every u: certain views remove the estimation uncertainty along the view portfolios, so P Sigma_post P' = P Sigma P'. |
| Model.PosteriorCovarianceWithoutViews | model.py:106-107 | With no views the posterior covariance is Sigma + tau Sigma. |
| Model.MaxSharpeWeights | model.py:71-75 | Succeeds iff the inversion succeeds and either there are no assets or the raw weights inv(Sigma_post) pi_post have a non-zero sum s. SingularMatrix means the inversion failed; ZeroWeightSum means N > 0 and s = 0. For N > 0 the weights sum to 1 and satisfy the tangency condition Sigma_post w = pi_post / s; for N = 0 they are empty. |
| Model.MaxSharpeSingularIffSingular | model.py:73 | For a sound inverter, the weights stage fails with SingularMatrix iff Sigma_post is singular. |
| Model.TangencyCondition | model.py:73-74 | Sigma (inv(Sigma) r / s) = r / s. |
| Model.SumOf | model.py:74 | The loop computes Python's `sum` of the array. |
| Model.DivideInPlace | model.py:74 | After the in-place `/=`, the array is the old one divided entrywise. |
| Model.Pipeline | model.py:14-51 | The stages of `allocate`, stopping at the first failure. A run without failure has one weight per asset, and for N > 0 they sum to one. |
| Model.PosteriorStages | model.py:41-48 | The three inverting stages keep pi, and a run of them without failure has one weight per asset that sum to one for N > 0. |
| Model.PipelineIndependentOfInverter | model.py:14-51 | Two sound inverters give the same allocation: every field and the failure agree. |
| Model.PosteriorStagesAgree | model.py:41-48 | Two sound inverters give the same posterior returns, posterior covariance and weights. |
| Model.ZeroConfidenceReachesIdzorek | model.py:175-177 | A zero confidence passes validation. In Idzorek mode with K = N, N given names (if any) and known assets, the allocation then stops with ZeroConfidence. |
| Model.NoViewsGiveMarketPortfolio | model.py:14-51 | With no views a successful allocation returns the market portfolio. The posterior returns are pi, the posterior covariance is Sigma + tau Sigma, and the weights are w / sum(w) for N > 0, empty for N = 0. |
| Model.MarketPortfolioFromScaledCovariance | model.py:71-75 | If x inverts Sigma + tau Sigma, normalising x (delta Sigma w) gives w / sum(w), and sum(w) is not zero. |
| Model.BlackLitterman.constructor | model.py:7-12 | All four result fields start as None. |
| Model.BlackLitterman.CalculateMaxSharpeWeights | model.py:71-75 | On the posterior fields, the array computation returns exactly `MaxSharpeWeights`. |
| Model.BlackLitterman.Allocate | model.py:14-51 | Returns the `Pipeline` failure. Each result field becomes the value its stage computed, and keeps its old value when the run stopped before that stage. |
| Matrices.DiagonalPart | model.py:160 | `np.diag(np.diag(m))` is diagonal and keeps m's diagonal entries. |
| Matrices.Reshape | model.py:39 | A row-major reshape of rows*cols entries is rows x cols. |
| Matrices.ReshapeFlatten | model.py:39 | Reshaping a matrix's own entries gives the matrix back. |
| Matrices.FlattenReshape | model.py:39 | Flattening a reshape gives the entries back. |
| Matrices.InverseUnique | model.py:73 | A matrix has at most one two-sided inverse. |
| Matrices.InverseCancels | model.py:90 | m (x v) = v when x inverts m. |
| Matrices.MulAssoc | model.py:89-90 | Matrix products associate, so the order numpy chains `.dot` in does not change the result. |
| Matrices.SumDiv | model.py:74 | sum(v / d) = sum(v) / d. |

## Left out

- `_pre_process_inputs` (model.py:53-69) and `_post_processing` (model.py:180-191) only
  reshape and relabel with pandas. Returns and weights are plain vectors here, and the
  final relabelling of the four fields is not modelled.
- The `print(pick_matrix)` at model.py:34 is output only.
- Taking asset names from the columns of a covariance DataFrame (model.py:23-24) is not
  modelled. The names are either given or the default `str(0..N-1)`.
- `numpy.linalg.inv` is a caller-supplied function, checked to be a two-sided inverse
  where it is used. Numerical inversion is not modelled.
- Floating point is not modelled. All arithmetic is exact over `real`. The NaN or Inf
  that numpy produces for a zero confidence or a zero weight sum are the errors
  ZeroConfidence and ZeroWeightSum. Near-singular matrices that numpy still inverts
  are not distinguished.
- Model.MaxSharpeWeights: for N > 0 and a zero sum of raw weights, numpy's `/=` fills the
  weights with Inf/NaN and `allocate` returns; the model stops with ZeroWeightSum instead.
  For N = 0 it follows numpy and returns empty weights.
- Model.PosteriorCovariance, Model.PosteriorExpectedReturns and Model.MaxSharpeWeights:
  their own success conditions are relative to the supplied inverter. In terms of
  nonsingularity they hold only for a sound inverter (PosteriorSucceedsIffNonsingular,
  MaxSharpeSingularIffSingular).
- What pandas does with a pick key outside the asset names is not modelled. It is the
  error UnknownAsset with the offending view.
- Shape errors numpy would raise for a covariance that is not N x N, or that does not
  match the market weights, are excluded by the precondition `AllocationInputs`.
- Duplicate asset names are excluded by the same precondition. With duplicates, pandas
  would write more than one column per label.
- Model.ViewOmega: its own contract states only the K x K shape. What it returns is
  stated by SuppliedOmegaUsedAsGiven, DerivedOmegaKeepsShape and CalculateOmega.
- Model.PosteriorExpectedReturns and Model.PosteriorCovariance: their own contracts
  state when they succeed and the result's shape. The values are characterised by the
  lemmas on no views, on agreeing views, on certain views and on the market portfolio.
- first_project.py (price download and return statistics) and main.py (a driver
  script) are not part of this model.
