/**
  The Black-Litterman allocator of model.py.

  `BlackLitterman.Allocate` runs the pipeline in its fixed order: validation of the
  inputs, the implied equilibrium returns, the pick matrix P, the view-uncertainty
  matrix omega, the posterior expected returns, the posterior covariance and the
  maximum-Sharpe weights. It overwrites the object's four result fields as each
  stage completes. Each stage is also a function of its inputs, and `Pipeline`
  composes them, so the properties of a whole allocation are stated about values.

  numpy.linalg.inv is not part of this model. The caller passes it in as `inv`, and
  `Invert` accepts its answer for a matrix only when that answer is a two-sided
  inverse; otherwise the stage fails with SingularMatrix. For a sound inverter, one
  that inverts every nonsingular matrix, that failure happens exactly on a singular
  matrix, and the whole allocation does not depend on which sound inverter is used.
*/
module Model {
  import opened Wrappers
  import opened Matrices

  /** The two omega methods `_error_checks` accepts; the first is the default. */
  const PriorVariance: string := "prior_variance"
  const UserConfidences: string := "user_confidences"

  /** One view's pick specification: asset name to coefficient. */
  type Pick = map<string, real>

  datatype Error =
    | ViewCountMismatch        // views and pick list differ in length
    | UnknownOmegaMethod       // neither prior_variance nor user_confidences
    | MissingConfidences       // user_confidences without confidences
    | ConfidenceCountMismatch  // confidences and views differ in length
    | NegativeConfidence       // some confidence is below zero
    | AssetNamesMismatch       // asset names and assets differ in number
    | UnknownAsset(view: nat)  // the first view whose pick names an unknown asset
    | ConfidenceShapeMismatch  // confidences cannot be reshaped to one per asset
    | ZeroConfidence           // (1 - c) / c with c = 0
    | OmegaShapeMismatch       // omega cannot be reshaped to K x K
    | SingularMatrix           // an inversion step has no inverse
    | ZeroWeightSum            // the raw max-Sharpe weights sum to zero

  // ------------------------------------------------------------ validation

  /** What `_error_checks` accepts: every condition it checks, all at once. */
  predicate InputsValid(views: Vector, pickList: seq<Pick>, omegaMethod: string, confidences: Option<Vector>)
  {
    && |views| == |pickList|
    && (omegaMethod == PriorVariance || omegaMethod == UserConfidences)
    && (omegaMethod == UserConfidences ==>
          && confidences.Some?
          && |confidences.value| == |views|
          && forall i :: 0 <= i < |confidences.value| ==> confidences.value[i] >= 0.0)
  }

  /** The error `_error_checks` raises first, or None when it raises nothing. */
  function ValidationError(views: Vector, pickList: seq<Pick>, omegaMethod: string, confidences: Option<Vector>): (r: Option<Error>)
    ensures r.None? <==> InputsValid(views, pickList, omegaMethod, confidences)
  {
    if |views| != |pickList| then Some(ViewCountMismatch)
    else if omegaMethod != PriorVariance && omegaMethod != UserConfidences then Some(UnknownOmegaMethod)
    else if omegaMethod != UserConfidences then None
    else if confidences.None? then Some(MissingConfidences)
    else if |views| != |confidences.value| then Some(ConfidenceCountMismatch)
    else if exists i :: 0 <= i < |confidences.value| && confidences.value[i] < 0.0 then Some(NegativeConfidence)
    else None
  }

  /** `_error_checks`: the checks in order, the confidences scanned one by one. */
  method ErrorChecks(views: Vector, pickList: seq<Pick>, omegaMethod: string, confidences: Option<Vector>)
    returns (e: Option<Error>)
    ensures e == ValidationError(views, pickList, omegaMethod, confidences)
  {
    if |views| != |pickList| {
      return Some(ViewCountMismatch);
    }
    if omegaMethod != PriorVariance && omegaMethod != UserConfidences {
      return Some(UnknownOmegaMethod);
    }
    if omegaMethod == UserConfidences {
      if confidences.None? {
        return Some(MissingConfidences);
      }
      var cs := confidences.value;
      if |views| != |cs| {
        return Some(ConfidenceCountMismatch);
      }
      var i := 0;
      while i < |cs|
        invariant 0 <= i <= |cs|
        invariant forall j :: 0 <= j < i ==> cs[j] >= 0.0
      {
        if cs[i] < 0.0 {
          return Some(NegativeConfidence);
        }
        i := i + 1;
      }
    }
    return None;
  }

  // ----------------------------------------------------------- pick matrix

  predicate Distinct(names: seq<string>)
  {
    forall i, j :: 0 <= i < j < |names| ==> names[i] != names[j]
  }

  /** Every asset the pick names is one of `names`. */
  predicate KnownAssets(pick: Pick, names: seq<string>)
  {
    forall a :: a in pick ==> a in names
  }

  /** The coefficient a pick gives an asset: zero for an asset it does not name. */
  function Coefficient(pick: Pick, asset: string): real
  {
    if asset in pick then pick[asset] else 0.0
  }

  /** The position of `asset` in `names` (the column pandas selects by label). */
  function IndexOf(names: seq<string>, asset: string): (i: nat)
    requires asset in names
    ensures i < |names| && names[i] == asset
    ensures forall j :: 0 <= j < i ==> names[j] != asset
  {
    if names[0] == asset then 0 else 1 + IndexOf(names[1..], asset)
  }

  /** The first view from `from` on whose pick names an asset outside `names`. */
  function FirstUnknownView(pickList: seq<Pick>, names: seq<string>, from: nat): (r: Option<nat>)
    requires from <= |pickList|
    ensures r.Some? ==> from <= r.value < |pickList| && !KnownAssets(pickList[r.value], names)
    ensures r.Some? ==> forall k :: from <= k < r.value ==> KnownAssets(pickList[k], names)
    ensures r.None? ==> forall k :: from <= k < |pickList| ==> KnownAssets(pickList[k], names)
    decreases |pickList| - from
  {
    if from == |pickList| then None
    else if !KnownAssets(pickList[from], names) then Some(from)
    else FirstUnknownView(pickList, names, from + 1)
  }

  /** The K x N matrix `_create_pick_matrix` returns, or the error it raises. */
  function PickMatrix(numViews: nat, numAssets: nat, pickList: seq<Pick>, assetNames: seq<string>): (r: Result<Matrix, Error>)
    requires |pickList| == numViews
    ensures r.Ok? <==> |assetNames| == numAssets && forall k :: 0 <= k < numViews ==> KnownAssets(pickList[k], assetNames)
    ensures r.Ok? ==> IsMatrix(r.value, numViews, numAssets)
    ensures r.Err? && r.error.UnknownAsset? ==>
      && r.error.view < numViews
      && (exists a :: a in pickList[r.error.view] && a !in assetNames)
      && forall k :: 0 <= k < r.error.view ==> KnownAssets(pickList[k], assetNames)
  {
    if |assetNames| != numAssets then Err(AssetNamesMismatch)
    else match FirstUnknownView(pickList, assetNames, 0)
      case Some(k) => Err(UnknownAsset(k))
      case None => Ok(seq(numViews, k requires 0 <= k < numViews =>
                     seq(numAssets, j requires 0 <= j < numAssets => Coefficient(pickList[k], assetNames[j]))))
  }

  function Rows(a: array2<real>): (m: Matrix)
    reads a
    ensures IsMatrix(m, a.Length0, a.Length1)
  {
    seq(a.Length0, i requires 0 <= i < a.Length0 reads a =>
      seq(a.Length1, j requires 0 <= j < a.Length1 reads a => a[i, j]))
  }

  /**
    `_create_pick_matrix`: start from a K x N zero matrix and, view by view, write each
    coefficient of the view's pick at the column of its asset.
  */
  method CreatePickMatrix(numViews: nat, numAssets: nat, pickList: seq<Pick>, assetNames: seq<string>)
    returns (r: Result<Matrix, Error>)
    requires |pickList| == numViews
    requires Distinct(assetNames)
    ensures r == PickMatrix(numViews, numAssets, pickList, assetNames)
  {
    if |assetNames| != numAssets {
      return Err(AssetNamesMismatch);
    }
    var p := new real[numViews, numAssets]((_, _) => 0.0);
    for k := 0 to numViews
      invariant forall i :: 0 <= i < k ==> KnownAssets(pickList[i], assetNames)
      invariant forall i, j :: 0 <= i < numViews && 0 <= j < numAssets ==>
        p[i, j] == if i < k then Coefficient(pickList[i], assetNames[j]) else 0.0
    {
      var pick := pickList[k];
      var pending := pick.Keys;
      while pending != {}
        invariant pending <= pick.Keys
        invariant forall a :: a in pick && a !in pending ==> a in assetNames
        invariant forall i, j :: 0 <= i < numViews && 0 <= j < numAssets ==>
          p[i, j] == if i < k then Coefficient(pickList[i], assetNames[j])
                     else if i == k && assetNames[j] in pick && assetNames[j] !in pending then pick[assetNames[j]]
                     else 0.0
        decreases pending
      {
        var asset :| asset in pending;
        if asset !in assetNames {
          assert !KnownAssets(pickList[k], assetNames);
          return Err(UnknownAsset(k));
        }
        var j := IndexOf(assetNames, asset);
        p[k, j] := pick[asset];
        pending := pending - {asset};
      }
    }
    assert FirstUnknownView(pickList, assetNames, 0).None?;
    var expected := PickMatrix(numViews, numAssets, pickList, assetNames).value;
    var m := Rows(p);
    forall k | 0 <= k < numViews
      ensures m[k] == expected[k]
    {
      forall j | 0 <= j < numAssets
        ensures m[k][j] == expected[k][j]
      {
      }
    }
    assert m == expected;
    r := Ok(m);
  }

  /**
    Row k of the pick matrix holds view k's coefficients at the columns of their
    assets and zero at every other column.
  */
  lemma PickMatrixEntries(numViews: nat, numAssets: nat, pickList: seq<Pick>, assetNames: seq<string>, k: nat)
    requires |pickList| == numViews && Distinct(assetNames) && k < numViews
    requires PickMatrix(numViews, numAssets, pickList, assetNames).Ok?
    ensures var p := PickMatrix(numViews, numAssets, pickList, assetNames).value;
      && (forall a :: a in pickList[k] ==>
            IndexOf(assetNames, a) < numAssets && p[k][IndexOf(assetNames, a)] == pickList[k][a])
      && (forall j :: 0 <= j < numAssets && assetNames[j] !in pickList[k] ==> p[k][j] == 0.0)
  {
  }

  // ------------------------------------------------------ asset names

  function DigitChar(d: nat): char
    requires d < 10
  {
    ('0' as int + d) as char
  }

  /** Python's `str` of a natural number. */
  function NatToString(n: nat): string
  {
    if n < 10 then [DigitChar(n)] else NatToString(n / 10) + [DigitChar(n % 10)]
  }

  /** `list(map(str, range(n)))`: the names used when none are given. */
  function DefaultAssetNames(n: nat): (names: seq<string>)
    ensures |names| == n
  {
    seq(n, i requires 0 <= i < n => NatToString(i))
  }

  lemma {:induction false} NatToStringLength(n: nat)
    ensures |NatToString(n)| >= 1
    ensures |NatToString(n)| == 1 <==> n < 10
  {
    if n >= 10 {
      NatToStringLength(n / 10);
    }
  }

  lemma {:induction false} NatToStringInjective(a: nat, b: nat)
    requires NatToString(a) == NatToString(b)
    ensures a == b
  {
    NatToStringLength(a);
    NatToStringLength(b);
    if a < 10 {
      assert DigitChar(a) == NatToString(a)[0] == DigitChar(b);
    } else {
      var s := NatToString(a);
      assert s == NatToString(a / 10) + [DigitChar(a % 10)];
      assert s == NatToString(b / 10) + [DigitChar(b % 10)];
      assert DigitChar(a % 10) == s[|s| - 1] == DigitChar(b % 10);
      assert NatToString(a / 10) == s[..|s| - 1] == NatToString(b / 10);
      NatToStringInjective(a / 10, b / 10);
    }
  }

  lemma DefaultAssetNamesDistinct(n: nat)
    ensures Distinct(DefaultAssetNames(n))
  {
    forall i, j | 0 <= i < j < n
      ensures DefaultAssetNames(n)[i] != DefaultAssetNames(n)[j]
    {
      if NatToString(i) == NatToString(j) {
        NatToStringInjective(i, j);
      }
    }
  }

  // --------------------------------------------------- equilibrium returns

  /** `_calculate_implied_equilibrium_returns`: pi = delta * Sigma * w. */
  function ImpliedEquilibriumReturns(riskAversion: real, covariance: Matrix, marketWeights: Vector): (pi: Vector)
    requires IsMatrix(covariance, |covariance|, |marketWeights|)
    ensures |pi| == |covariance|
    ensures forall i :: 0 <= i < |pi| ==> pi[i] == riskAversion * Dot(covariance[i], marketWeights)
  {
    ScaleV(riskAversion, MatVec(covariance, marketWeights))
  }

  /**
    Reverse optimisation undone: the returns implied by the market weights lead
    back to those weights (times the risk aversion) through the inverse covariance.
  */
  lemma ReverseOptimisation(riskAversion: real, covariance: Matrix, marketWeights: Vector, x: Matrix)
    requires IsMatrix(covariance, |marketWeights|, |marketWeights|) && IsInverse(covariance, x)
    ensures MatVec(x, ImpliedEquilibriumReturns(riskAversion, covariance, marketWeights)) == ScaleV(riskAversion, marketWeights)
  {
    var v := MatVec(covariance, marketWeights);
    MatVecScale(x, riskAversion, v);
    InverseCancels(covariance, x, marketWeights);
  }

  // ------------------------------------------------------------------ omega

  /** The matrix `_calculate_omega` starts from in prior-variance mode: P (tau Sigma P'). */
  function PriorVarianceOmega(covariance: Matrix, tau: real, pickMatrix: Matrix): (omega: Matrix)
    requires IsSquare(covariance) && IsMatrix(pickMatrix, |pickMatrix|, |covariance|)
    ensures IsMatrix(omega, |pickMatrix|, |pickMatrix|)
    ensures forall k :: 0 <= k < |pickMatrix| ==> omega[k][k] == tau * Quad(covariance, pickMatrix[k])
  {
    PriorVarianceDiagonal(covariance, tau, pickMatrix);
    Mul(pickMatrix, Mul(ScaleM(tau, covariance), Transpose(pickMatrix, |covariance|), |pickMatrix|), |pickMatrix|)
  }

  lemma PriorVarianceDiagonal(covariance: Matrix, tau: real, pickMatrix: Matrix)
    requires IsSquare(covariance) && IsMatrix(pickMatrix, |pickMatrix|, |covariance|)
    ensures var n, k := |covariance|, |pickMatrix|;
      var m := Mul(pickMatrix, Mul(ScaleM(tau, covariance), Transpose(pickMatrix, n), k), k);
      forall i :: 0 <= i < k ==> m[i][i] == tau * Quad(covariance, pickMatrix[i])
  {
    var n := |covariance|;
    forall i | 0 <= i < |pickMatrix|
      ensures Mul(pickMatrix, Mul(ScaleM(tau, covariance), Transpose(pickMatrix, n), |pickMatrix|), |pickMatrix|)[i][i]
              == tau * Quad(covariance, pickMatrix[i])
    {
      SandwichDiagonal(pickMatrix, ScaleM(tau, covariance), n, i);
      MatVecScale(covariance, tau, pickMatrix[i]);
      DotScaleRight(tau, pickMatrix[i], MatVec(covariance, pickMatrix[i]));
    }
  }

  /** Idzorek's alpha for a confidence c: (1 - c) / c. */
  function Alpha(c: real): real
    requires c != 0.0
  {
    (1.0 - c) / c
  }

  predicate NoZero(confidences: Vector)
  {
    forall j :: 0 <= j < |confidences| ==> confidences[j] != 0.0
  }

  /**
    `_calculate_idzorek_omega`: the confidences reshaped to one per asset, alpha taken
    entrywise, and column j of P Sigma P' scaled by alpha_j (numpy broadcasting).
  */
  function IdzorekOmega(covariance: Matrix, confidences: Vector, pickMatrix: Matrix): (r: Result<Matrix, Error>)
    requires IsSquare(covariance) && IsMatrix(pickMatrix, |pickMatrix|, |covariance|)
    requires |confidences| == |pickMatrix|
    ensures r.Ok? <==> |pickMatrix| == |covariance| && NoZero(confidences)
    ensures r.Err? ==> r.error == if |pickMatrix| != |covariance| then ConfidenceShapeMismatch else ZeroConfidence
    ensures r.Ok? ==> IsMatrix(r.value, |pickMatrix|, |pickMatrix|)
    ensures r.Ok? ==> forall k :: 0 <= k < |pickMatrix| ==>
      r.value[k][k] == Alpha(confidences[k]) * Quad(covariance, pickMatrix[k])
  {
    var n, k := |covariance|, |pickMatrix|;
    if |confidences| != n then Err(ConfidenceShapeMismatch)
    else if !NoZero(confidences) then Err(ZeroConfidence)
    else
      var m := Mul(Mul(pickMatrix, covariance, n), Transpose(pickMatrix, n), k);
      IdzorekDiagonal(covariance, pickMatrix);
      Ok(seq(k, i requires 0 <= i < k => seq(k, j requires 0 <= j < k => Alpha(confidences[j]) * m[i][j])))
  }

  lemma IdzorekDiagonal(covariance: Matrix, pickMatrix: Matrix)
    requires IsSquare(covariance) && IsMatrix(pickMatrix, |pickMatrix|, |covariance|)
    ensures var n, k := |covariance|, |pickMatrix|;
      var m := Mul(Mul(pickMatrix, covariance, n), Transpose(pickMatrix, n), k);
      forall i :: 0 <= i < k ==> m[i][i] == Quad(covariance, pickMatrix[i])
  {
    var n, k := |covariance|, |pickMatrix|;
    MulAssoc(pickMatrix, covariance, Transpose(pickMatrix, n), k);
    forall i | 0 <= i < k
      ensures Mul(pickMatrix, Mul(covariance, Transpose(pickMatrix, n), k), k)[i][i] == Quad(covariance, pickMatrix[i])
    {
      SandwichDiagonal(pickMatrix, covariance, n, i);
    }
  }

  /**
    `_calculate_omega`: the prior-variance or the Idzorek matrix, forced diagonal.
    Any method other than prior_variance takes the Idzorek branch, as in the source.
  */
  function CalculateOmega(covariance: Matrix, tau: real, pickMatrix: Matrix, confidences: Option<Vector>, omegaMethod: string)
    : (r: Result<Matrix, Error>)
    requires IsSquare(covariance) && IsMatrix(pickMatrix, |pickMatrix|, |covariance|)
    requires omegaMethod != PriorVariance ==> confidences.Some? && |confidences.value| == |pickMatrix|
    ensures r.Ok? ==> IsMatrix(r.value, |pickMatrix|, |pickMatrix|) && IsDiagonal(r.value)
    ensures omegaMethod == PriorVariance ==>
      && r.Ok?
      && forall k :: 0 <= k < |pickMatrix| ==> r.value[k][k] == tau * Quad(covariance, pickMatrix[k])
    ensures omegaMethod != PriorVariance ==>
      && (r.Ok? <==> |pickMatrix| == |covariance| && NoZero(confidences.value))
      && (r.Ok? ==> forall k :: 0 <= k < |pickMatrix| ==>
            r.value[k][k] == Alpha(confidences.value[k]) * Quad(covariance, pickMatrix[k]))
  {
    if omegaMethod == PriorVariance then Ok(DiagonalPart(PriorVarianceOmega(covariance, tau, pickMatrix)))
    else match IdzorekOmega(covariance, confidences.value, pickMatrix)
      case Err(e) => Err(e)
      case Ok(m) => Ok(DiagonalPart(m))
  }

  /**
    `np.reshape(omega, (K, K))`: the rows must form a rectangular array (numpy refuses a
    ragged nested list) holding exactly K * K entries.
  */
  function ReshapeOmega(omega: Matrix, numViews: nat): (r: Result<Matrix, Error>)
    ensures r.Ok? <==> Rectangular(omega) && |Flatten(omega)| == numViews * numViews
    ensures r.Err? ==> r.error == OmegaShapeMismatch
    ensures r.Ok? ==> IsMatrix(r.value, numViews, numViews) && Flatten(r.value) == Flatten(omega)
  {
    var flat := Flatten(omega);
    if !Rectangular(omega) || |flat| != numViews * numViews then Err(OmegaShapeMismatch)
    else
      var m := Reshape(flat, numViews, numViews);
      FlattenReshape(flat, numViews, numViews);
      Ok(m)
  }

  /** A ragged omega is refused even when it holds K * K entries. */
  lemma RaggedOmegaRejected()
    ensures ReshapeOmega([[1.0], [2.0, 3.0, 4.0]], 2) == Err(OmegaShapeMismatch)
  {
    var omega: Matrix := [[1.0], [2.0, 3.0, 4.0]];
    assert |omega[1]| != |omega[0]|;
  }

  /** Lines 37-39 of `allocate`: the omega given, or the derived one, reshaped to K x K. */
  function ViewOmega(suppliedOmega: Option<Matrix>, covariance: Matrix, tau: real, pickMatrix: Matrix,
                     confidences: Option<Vector>, omegaMethod: string): (r: Result<Matrix, Error>)
    requires IsSquare(covariance) && IsMatrix(pickMatrix, |pickMatrix|, |covariance|)
    requires omegaMethod != PriorVariance ==> confidences.Some? && |confidences.value| == |pickMatrix|
    ensures r.Ok? ==> IsMatrix(r.value, |pickMatrix|, |pickMatrix|)
  {
    var raw := if suppliedOmega.Some? then Ok(suppliedOmega.value)
               else CalculateOmega(covariance, tau, pickMatrix, confidences, omegaMethod);
    match raw
    case Err(e) => Err(e)
    case Ok(o) => ReshapeOmega(o, |pickMatrix|)
  }

  /** A supplied K x K omega bypasses the derivation and is used exactly as given. */
  lemma SuppliedOmegaUsedAsGiven(omega: Matrix, covariance: Matrix, tau: real, pickMatrix: Matrix,
                                 confidences: Option<Vector>, omegaMethod: string)
    requires IsSquare(covariance) && IsMatrix(pickMatrix, |pickMatrix|, |covariance|)
    requires omegaMethod != PriorVariance ==> confidences.Some? && |confidences.value| == |pickMatrix|
    requires IsMatrix(omega, |pickMatrix|, |pickMatrix|)
    ensures ViewOmega(Some(omega), covariance, tau, pickMatrix, confidences, omegaMethod) == Ok(omega)
  {
    ReshapeFlatten(omega, |pickMatrix|, |pickMatrix|);
  }

  /** Without a supplied omega, the reshape leaves the derived one as it is. */
  lemma DerivedOmegaKeepsShape(covariance: Matrix, tau: real, pickMatrix: Matrix,
                               confidences: Option<Vector>, omegaMethod: string)
    requires IsSquare(covariance) && IsMatrix(pickMatrix, |pickMatrix|, |covariance|)
    requires omegaMethod != PriorVariance ==> confidences.Some? && |confidences.value| == |pickMatrix|
    ensures ViewOmega(None, covariance, tau, pickMatrix, confidences, omegaMethod)
         == CalculateOmega(covariance, tau, pickMatrix, confidences, omegaMethod)
  {
    var raw := CalculateOmega(covariance, tau, pickMatrix, confidences, omegaMethod);
    if raw.Ok? {
      ReshapeFlatten(raw.value, |pickMatrix|, |pickMatrix|);
    }
  }

  /** Prior-variance uncertainties are never negative for a positive semi-definite Sigma. */
  lemma PriorVarianceOmegaNonnegative(covariance: Matrix, tau: real, pickMatrix: Matrix, confidences: Option<Vector>)
    requires IsSquare(covariance) && IsMatrix(pickMatrix, |pickMatrix|, |covariance|)
    requires PositiveSemidefinite(covariance) && tau >= 0.0
    ensures var omega := CalculateOmega(covariance, tau, pickMatrix, confidences, PriorVariance).value;
      forall k, j :: 0 <= k < |pickMatrix| && 0 <= j < |pickMatrix| ==> omega[k][j] >= 0.0
  {
    var omega := CalculateOmega(covariance, tau, pickMatrix, confidences, PriorVariance).value;
    ScaledDiagonalNonnegative(omega, covariance, tau, pickMatrix);
  }

  lemma ScaledDiagonalNonnegative(omega: Matrix, covariance: Matrix, tau: real, pickMatrix: Matrix)
    requires IsMatrix(omega, |pickMatrix|, |pickMatrix|) && IsDiagonal(omega)
    requires IsSquare(covariance) && IsMatrix(pickMatrix, |pickMatrix|, |covariance|)
    requires PositiveSemidefinite(covariance) && tau >= 0.0
    requires forall k :: 0 <= k < |pickMatrix| ==> omega[k][k] == tau * Quad(covariance, pickMatrix[k])
    ensures forall k, j :: 0 <= k < |pickMatrix| && 0 <= j < |pickMatrix| ==> omega[k][j] >= 0.0
  {
    forall k | 0 <= k < |pickMatrix|
      ensures omega[k][k] >= 0.0
    {
      ScaledQuadNonnegative(covariance, tau, pickMatrix[k]);
    }
  }

  lemma ScaledQuadNonnegative(covariance: Matrix, tau: real, p: Vector)
    requires PositiveSemidefinite(covariance) && |p| == |covariance| && tau >= 0.0
    ensures tau * Quad(covariance, p) >= 0.0
  {
    var q := Quad(covariance, p);
    assert q >= 0.0;
    NonnegativeProduct(tau, q);
  }

  lemma NonnegativeProduct(a: real, b: real)
    requires a >= 0.0 && b >= 0.0
    ensures a * b >= 0.0
  {
  }

  /** A view held with confidence 1 gets zero uncertainty in Idzorek mode. */
  lemma FullConfidenceHasNoUncertainty(covariance: Matrix, tau: real, pickMatrix: Matrix, confidences: Vector, k: nat)
    requires IsSquare(covariance) && IsMatrix(pickMatrix, |pickMatrix|, |covariance|)
    requires |confidences| == |pickMatrix| && k < |pickMatrix| && confidences[k] == 1.0
    requires CalculateOmega(covariance, tau, pickMatrix, Some(confidences), UserConfidences).Ok?
    ensures CalculateOmega(covariance, tau, pickMatrix, Some(confidences), UserConfidences).value[k][k] == 0.0
  {
  }

  /**
    Idzorek uncertainty does not grow as confidence rises: for a view of non-negative
    prior variance q, a confidence c1 <= c2 gives alpha(c1) q >= alpha(c2) q.
  */
  lemma IdzorekUncertaintyMonotone(c1: real, c2: real, q: real)
    requires 0.0 < c1 <= c2 && q >= 0.0
    ensures Alpha(c1) * q >= Alpha(c2) * q
  {
    assert Alpha(c1) == 1.0 / c1 - 1.0;
    assert Alpha(c2) == 1.0 / c2 - 1.0;
    ReciprocalAntitone(c1, c2);
    assert (Alpha(c1) - Alpha(c2)) * q >= 0.0;
  }

  lemma ReciprocalAntitone(c1: real, c2: real)
    requires 0.0 < c1 <= c2
    ensures 1.0 / c1 >= 1.0 / c2
  {
    assert (1.0 / c1) * c1 == 1.0 && (1.0 / c2) * c2 == 1.0;
    assert (1.0 / c2) * c1 <= (1.0 / c2) * c2;
  }

  // -------------------------------------------------------------- posterior

  /**
    numpy.linalg.inv as supplied by the caller, trusted only where it inverts `m`.
    Whether a call succeeds is relative to the inverter; for a sound one it is exactly
    whether `m` is nonsingular (InvertFailsIffSingular).
  */
  function Invert(inv: Matrix -> Matrix, m: Matrix): (r: Result<Matrix, Error>)
    ensures r.Ok? ==> IsInverse(m, r.value)
    ensures r.Err? ==> r.error == SingularMatrix && !IsInverse(m, inv(m))
  {
    if IsInverse(m, inv(m)) then Ok(inv(m)) else Err(SingularMatrix)
  }

  /** An inverter that finds the inverse of every nonsingular matrix, as exact inversion does. */
  ghost predicate SoundInverter(inv: Matrix -> Matrix)
  {
    forall m, x {:trigger IsInverse(m, x)} :: IsInverse(m, x) ==> IsInverse(m, inv(m))
  }

  /** With a sound inverter, an inversion step fails exactly on a singular matrix. */
  lemma InvertFailsIffSingular(inv: Matrix -> Matrix, m: Matrix)
    requires SoundInverter(inv)
    ensures Invert(inv, m).Err? <==> !Nonsingular(m)
  {
  }

  /** Any two inverters that both succeed on `m` agree. */
  lemma InvertIndependentOfInverter(inv1: Matrix -> Matrix, inv2: Matrix -> Matrix, m: Matrix)
    requires Invert(inv1, m).Ok? && Invert(inv2, m).Ok?
    ensures Invert(inv1, m).value == Invert(inv2, m).value
  {
    InverseUnique(m, inv1(m), inv2(m));
  }

  /** Two sound inverters give the same inversion result on every matrix, errors included. */
  lemma SoundInvertersAgree(inv1: Matrix -> Matrix, inv2: Matrix -> Matrix, m: Matrix)
    requires SoundInverter(inv1) && SoundInverter(inv2)
    ensures Invert(inv1, m) == Invert(inv2, m)
  {
    InvertFailsIffSingular(inv1, m);
    InvertFailsIffSingular(inv2, m);
    if Invert(inv1, m).Ok? {
      InvertIndependentOfInverter(inv1, inv2, m);
    }
  }

  /** The shapes the posterior formulas need: Sigma N x N, P K x N, omega K x K. */
  predicate PosteriorShapes(covariance: Matrix, pickMatrix: Matrix, omega: Matrix)
  {
    IsSquare(covariance) && IsMatrix(pickMatrix, |pickMatrix|, |covariance|)
    && IsMatrix(omega, |pickMatrix|, |pickMatrix|)
  }

  /** The K x K matrix both posterior formulas invert: P (tau Sigma) P' + omega. */
  function ViewCovariance(covariance: Matrix, tau: real, pickMatrix: Matrix, omega: Matrix): (a: Matrix)
    requires PosteriorShapes(covariance, pickMatrix, omega)
    ensures IsMatrix(a, |pickMatrix|, |pickMatrix|)
  {
    var n, k := |covariance|, |pickMatrix|;
    AddM(Mul(Mul(pickMatrix, ScaleM(tau, covariance), n), Transpose(pickMatrix, n), k), omega)
  }

  /** (tau Sigma) P', the N x K matrix that carries view surprises into asset returns. */
  function ViewGain(covariance: Matrix, tau: real, pickMatrix: Matrix): (g: Matrix)
    requires IsSquare(covariance) && IsMatrix(pickMatrix, |pickMatrix|, |covariance|)
    ensures IsMatrix(g, |covariance|, |pickMatrix|)
  {
    Mul(ScaleM(tau, covariance), Transpose(pickMatrix, |covariance|), |pickMatrix|)
  }

  /**
    `_calculate_posterior_expected_returns`:
    pi + (tau Sigma) P' [ inv(P (tau Sigma) P' + omega) (Q - P pi) ].
  */
  function PosteriorExpectedReturns(inv: Matrix -> Matrix, covariance: Matrix, tau: real, pickMatrix: Matrix,
                                    omega: Matrix, views: Vector, pi: Vector): (r: Result<Vector, Error>)
    requires PosteriorShapes(covariance, pickMatrix, omega)
    requires |views| == |pickMatrix| && |pi| == |covariance|
    ensures r.Ok? <==> Invert(inv, ViewCovariance(covariance, tau, pickMatrix, omega)).Ok?
    ensures r.Ok? ==> |r.value| == |covariance|
  {
    match Invert(inv, ViewCovariance(covariance, tau, pickMatrix, omega))
    case Err(e) => Err(e)
    case Ok(x) =>
      var surprise := SubV(views, MatVec(pickMatrix, pi));
      Ok(AddV(pi, MatVec(ViewGain(covariance, tau, pickMatrix), MatVec(x, surprise))))
  }

  /**
    `_calculate_posterior_covariance`:
    Sigma + tau Sigma - (tau Sigma) P' inv(P (tau Sigma) P' + omega) P (tau Sigma).
  */
  function PosteriorCovariance(inv: Matrix -> Matrix, covariance: Matrix, tau: real, pickMatrix: Matrix, omega: Matrix)
    : (r: Result<Matrix, Error>)
    requires PosteriorShapes(covariance, pickMatrix, omega)
    ensures r.Ok? <==> Invert(inv, ViewCovariance(covariance, tau, pickMatrix, omega)).Ok?
    ensures r.Ok? ==> IsSquare(r.value) && |r.value| == |covariance|
  {
    match Invert(inv, ViewCovariance(covariance, tau, pickMatrix, omega))
    case Err(e) => Err(e)
    case Ok(x) =>
      var n, k := |covariance|, |pickMatrix|;
      var tauCov := ScaleM(tau, covariance);
      var reduction := Mul(Mul(Mul(ViewGain(covariance, tau, pickMatrix), x, k), pickMatrix, n), tauCov, n);
      Ok(SubM(AddM(covariance, tauCov), reduction))
  }

  /** With a sound inverter, both posterior stages succeed exactly when the view covariance is nonsingular. */
  lemma PosteriorSucceedsIffNonsingular(inv: Matrix -> Matrix, covariance: Matrix, tau: real, pickMatrix: Matrix,
                                        omega: Matrix, views: Vector, pi: Vector)
    requires PosteriorShapes(covariance, pickMatrix, omega) && SoundInverter(inv)
    requires |views| == |pickMatrix| && |pi| == |covariance|
    ensures PosteriorExpectedReturns(inv, covariance, tau, pickMatrix, omega, views, pi).Ok?
      <==> Nonsingular(ViewCovariance(covariance, tau, pickMatrix, omega))
    ensures PosteriorCovariance(inv, covariance, tau, pickMatrix, omega).Ok?
      <==> Nonsingular(ViewCovariance(covariance, tau, pickMatrix, omega))
  {
    InvertFailsIffSingular(inv, ViewCovariance(covariance, tau, pickMatrix, omega));
  }

  /** With no views the update vanishes: the posterior returns are the equilibrium returns. */
  lemma PosteriorReturnsWithoutViews(inv: Matrix -> Matrix, covariance: Matrix, tau: real, pickMatrix: Matrix,
                                     omega: Matrix, views: Vector, pi: Vector)
    requires PosteriorShapes(covariance, pickMatrix, omega)
    requires |views| == |pickMatrix| == 0 && |pi| == |covariance|
    requires PosteriorExpectedReturns(inv, covariance, tau, pickMatrix, omega, views, pi).Ok?
    ensures PosteriorExpectedReturns(inv, covariance, tau, pickMatrix, omega, views, pi).value == pi
  {
    var x := Invert(inv, ViewCovariance(covariance, tau, pickMatrix, omega)).value;
    var surprise := SubV(views, MatVec(pickMatrix, pi));
    var g := ViewGain(covariance, tau, pickMatrix);
    assert MatVec(x, surprise) == [];
    forall i | 0 <= i < |covariance|
      ensures MatVec(g, [])[i] == 0.0
    {
    }
  }

  /** Views that agree with equilibrium (Q = P pi) leave the returns unchanged. */
  lemma PosteriorReturnsAgreeingViews(inv: Matrix -> Matrix, covariance: Matrix, tau: real, pickMatrix: Matrix,
                                      omega: Matrix, pi: Vector)
    requires PosteriorShapes(covariance, pickMatrix, omega) && |pi| == |covariance|
    requires PosteriorExpectedReturns(inv, covariance, tau, pickMatrix, omega, MatVec(pickMatrix, pi), pi).Ok?
    ensures PosteriorExpectedReturns(inv, covariance, tau, pickMatrix, omega, MatVec(pickMatrix, pi), pi).value == pi
  {
    var k := |pickMatrix|;
    var x := Invert(inv, ViewCovariance(covariance, tau, pickMatrix, omega)).value;
    var views := MatVec(pickMatrix, pi);
    assert SubV(views, views) == Zeros(k);
    MatVecZeros(x, k);
    MatVecZeros(ViewGain(covariance, tau, pickMatrix), k);
  }

  /**
    Views held with zero uncertainty (omega = 0) are met exactly:
    the posterior returns seen through P are the views, P pi_post = Q.
  */
  lemma {:induction false} PosteriorHonoursCertainViews(inv: Matrix -> Matrix, covariance: Matrix, tau: real, pickMatrix: Matrix,
                                     views: Vector, pi: Vector)
    requires PosteriorShapes(covariance, pickMatrix, ZeroMatrix(|pickMatrix|, |pickMatrix|))
    requires |views| == |pickMatrix| && |pi| == |covariance|
    requires PosteriorExpectedReturns(inv, covariance, tau, pickMatrix, ZeroMatrix(|pickMatrix|, |pickMatrix|), views, pi).Ok?
    ensures MatVec(pickMatrix, PosteriorExpectedReturns(inv, covariance, tau, pickMatrix,
                                                        ZeroMatrix(|pickMatrix|, |pickMatrix|), views, pi).value) == views
  {
    var n, k := |covariance|, |pickMatrix|;
    var omega := ZeroMatrix(k, k);
    var a := ViewCovariance(covariance, tau, pickMatrix, omega);
    var x := Invert(inv, a).value;
    var surprise := SubV(views, MatVec(pickMatrix, pi));
    var g := ViewGain(covariance, tau, pickMatrix);
    var tauCov := ScaleM(tau, covariance);
    var pt := Transpose(pickMatrix, n);
    var y := MatVec(x, surprise);
    // P (g y) = (P g) y, and P g = (P tauCov) P' = a, the view covariance with omega = 0
    assert MatVec(pickMatrix, MatVec(g, y)) == MatVec(a, y) by {
      MatVecMul(pickMatrix, g, y);
      MulAssoc(pickMatrix, tauCov, pt, k);
      AddZeroMatrix(Mul(Mul(pickMatrix, tauCov, n), pt, k), k, k);
    }
    // a (x surprise) = surprise
    InverseCancels(a, x, surprise);
    MatVecAdd(pickMatrix, pi, MatVec(g, y));
  }

  /**
    Views held with zero uncertainty (omega = 0) leave no estimation uncertainty along the
    view portfolios: P Sigma_post u = P Sigma u for every u, so P Sigma_post P' = P Sigma P'.
  */
  lemma {:induction false} PosteriorCovarianceCertainViews(inv: Matrix -> Matrix, covariance: Matrix, tau: real,
                                                           pickMatrix: Matrix, u: Vector)
    requires PosteriorShapes(covariance, pickMatrix, ZeroMatrix(|pickMatrix|, |pickMatrix|)) && |u| == |covariance|
    requires PosteriorCovariance(inv, covariance, tau, pickMatrix, ZeroMatrix(|pickMatrix|, |pickMatrix|)).Ok?
    ensures MatVec(pickMatrix, MatVec(PosteriorCovariance(inv, covariance, tau, pickMatrix,
                                                          ZeroMatrix(|pickMatrix|, |pickMatrix|)).value, u))
         == MatVec(pickMatrix, MatVec(covariance, u))
  {
    var n, k := |covariance|, |pickMatrix|;
    var a := ViewCovariance(covariance, tau, pickMatrix, ZeroMatrix(k, k));
    var x := Invert(inv, a).value;
    var tauCov := ScaleM(tau, covariance);
    var g := ViewGain(covariance, tau, pickMatrix);
    var pt := Transpose(pickMatrix, n);
    var gx := Mul(g, x, k);
    var gxp := Mul(gx, pickMatrix, n);
    var reduction := Mul(gxp, tauCov, n);
    var total := AddM(covariance, tauCov);
    var t := MatVec(tauCov, u);
    var ptu := MatVec(pickMatrix, t);
    // reduction u = g (x (P t))
    assert MatVec(reduction, u) == MatVec(g, MatVec(x, ptu)) by {
      MatVecMul(gxp, tauCov, u);
      MatVecMul(gx, pickMatrix, t);
      MatVecMul(g, x, ptu);
    }
    // P (reduction u) = a (x (P t)) = P t, since P g = P (tau Sigma) P' = a
    assert MatVec(pickMatrix, MatVec(reduction, u)) == ptu by {
      MatVecMul(pickMatrix, g, MatVec(x, ptu));
      MulAssoc(pickMatrix, tauCov, pt, k);
      AddZeroMatrix(Mul(Mul(pickMatrix, tauCov, n), pt, k), k, k);
      InverseCancels(a, x, ptu);
    }
    var cu := MatVec(covariance, u);
    assert MatVec(SubM(total, reduction), u) == SubV(AddV(cu, t), MatVec(reduction, u)) by {
      MatVecSubM(total, reduction, u);
      MatVecAddM(covariance, tauCov, u);
    }
    MatVecSub(pickMatrix, AddV(cu, t), MatVec(reduction, u));
    MatVecAdd(pickMatrix, cu, t);
    var pc := MatVec(pickMatrix, cu);
    assert SubV(AddV(pc, ptu), ptu) == pc;
  }

  /** With no views, the posterior covariance is Sigma + tau Sigma. */
  lemma PosteriorCovarianceWithoutViews(inv: Matrix -> Matrix, covariance: Matrix, tau: real, pickMatrix: Matrix, omega: Matrix)
    requires PosteriorShapes(covariance, pickMatrix, omega) && |pickMatrix| == 0
    requires PosteriorCovariance(inv, covariance, tau, pickMatrix, omega).Ok?
    ensures PosteriorCovariance(inv, covariance, tau, pickMatrix, omega).value == AddM(covariance, ScaleM(tau, covariance))
  {
    var n := |covariance|;
    var x := Invert(inv, ViewCovariance(covariance, tau, pickMatrix, omega)).value;
    var tauCov := ScaleM(tau, covariance);
    var gx := Mul(ViewGain(covariance, tau, pickMatrix), x, 0);
    var middle := Mul(gx, pickMatrix, n);
    MulEmptyInner(gx, pickMatrix, n);
    var reduction := Mul(middle, tauCov, n);
    forall i, j | 0 <= i < n && 0 <= j < n
      ensures reduction[i][j] == 0.0
    {
      DotZeroLeft(middle[i], Column(tauCov, j));
    }
    var sum := AddM(covariance, tauCov);
    forall i | 0 <= i < n
      ensures SubM(sum, reduction)[i] == sum[i]
    {
    }
  }

  // ------------------------------------------------------- max-Sharpe weights

  /**
    `_calculate_max_sharpe_weights`: raw = inv(Sigma_post) pi_post, scaled to sum to one.
    For N > 0 assets the weights sum to one and solve the tangency condition
    Sigma_post w = pi_post / s, where s is the sum of the raw weights. With no assets the
    empty array divided by its zero sum stays empty.
  */
  function MaxSharpeWeights(inv: Matrix -> Matrix, covariance: Matrix, expected: Vector): (r: Result<Vector, Error>)
    requires IsMatrix(covariance, |expected|, |expected|)
    ensures r.Ok? ==> |r.value| == |expected| && Invert(inv, covariance).Ok?
    ensures r.Ok? && |expected| > 0 ==>
      && Sum(r.value) == 1.0
      && Sum(MatVec(inv(covariance), expected)) != 0.0
      && MatVec(covariance, r.value) == DivV(expected, Sum(MatVec(inv(covariance), expected)))
    ensures Invert(inv, covariance).Ok? && (|expected| == 0 || Sum(MatVec(inv(covariance), expected)) != 0.0)
      ==> r.Ok?
    ensures r.Err? ==> r.error == SingularMatrix || r.error == ZeroWeightSum
    ensures r.Err? && r.error == SingularMatrix ==> Invert(inv, covariance).Err?
    ensures r.Err? && r.error == ZeroWeightSum ==>
      Invert(inv, covariance).Ok? && |expected| > 0 && Sum(MatVec(inv(covariance), expected)) == 0.0
  {
    match Invert(inv, covariance)
    case Err(e) => Err(e)
    case Ok(x) =>
      var raw := MatVec(x, expected);
      var s := Sum(raw);
      if |raw| == 0 then Ok(raw)
      else if s == 0.0 then Err(ZeroWeightSum)
      else
        SumDiv(raw, s);
        assert s / s == 1.0;
        TangencyCondition(covariance, x, expected, s);
        Ok(DivV(raw, s))
  }

  /** With a sound inverter, the weights stage fails with SingularMatrix exactly on a singular Sigma_post. */
  lemma MaxSharpeSingularIffSingular(inv: Matrix -> Matrix, covariance: Matrix, expected: Vector)
    requires IsMatrix(covariance, |expected|, |expected|) && SoundInverter(inv)
    ensures MaxSharpeWeights(inv, covariance, expected) == Err(SingularMatrix) <==> !Nonsingular(covariance)
  {
    InvertFailsIffSingular(inv, covariance);
  }

  lemma TangencyCondition(covariance: Matrix, x: Matrix, expected: Vector, s: real)
    requires IsMatrix(covariance, |expected|, |expected|) && IsInverse(covariance, x) && s != 0.0
    ensures MatVec(covariance, DivV(MatVec(x, expected), s)) == DivV(expected, s)
  {
    var raw := MatVec(x, expected);
    DivIsScale(raw, s);
    MatVecScale(covariance, 1.0 / s, raw);
    InverseCancels(covariance, x, expected);
    DivIsScale(expected, s);
  }

  /** Python's `sum` over the array. */
  method SumOf(a: array<real>) returns (s: real)
    ensures s == Sum(a[..])
  {
    s := 0.0;
    for i := 0 to a.Length
      invariant s == Sum(a[..i])
    {
      assert a[..i + 1] == a[..i] + [a[i]];
      SumAppend(a[..i], a[i]);
      s := s + a[i];
    }
    assert a[..a.Length] == a[..];
  }

  /** numpy's in-place `a /= d`. */
  method DivideInPlace(a: array<real>, d: real)
    requires d != 0.0
    modifies a
    ensures a[..] == DivV(old(a[..]), d)
  {
    for i := 0 to a.Length
      invariant forall k :: 0 <= k < i ==> a[k] == old(a[k]) / d
      invariant forall k :: i <= k < a.Length ==> a[k] == old(a[k])
    {
      a[i] := a[i] / d;
    }
  }

  // --------------------------------------------------------------- pipeline

  /** How far an allocation got: what each stage produced, and the error that stopped it. */
  datatype Progress = Progress(
    impliedEquilibriumReturns: Option<Vector>,
    posteriorExpectedReturns: Option<Vector>,
    posteriorCovariance: Option<Matrix>,
    weights: Option<Vector>,
    failure: Option<Error>)

  /** The preconditions of `allocate` on its inputs: Sigma is N x N for N assets, the names are unique. */
  predicate AllocationInputs(covariance: Matrix, marketWeights: Vector, assetNames: Option<seq<string>>)
  {
    IsMatrix(covariance, |marketWeights|, |marketWeights|) && (assetNames.Some? ==> Distinct(assetNames.value))
  }

  /** `allocate` as a function: the stages in order, stopping at the first failure. */
  function Pipeline(inv: Matrix -> Matrix, covariance: Matrix, marketWeights: Vector, views: Vector, pickList: seq<Pick>,
                    omega: Option<Matrix>, riskAversion: real, tau: real, omegaMethod: string,
                    confidences: Option<Vector>, assetNames: Option<seq<string>>): (p: Progress)
    requires AllocationInputs(covariance, marketWeights, assetNames)
    ensures p.failure.None? ==> p.weights.Some? && |p.weights.value| == |marketWeights|
    ensures p.failure.None? && |marketWeights| > 0 ==> Sum(p.weights.value) == 1.0
  {
    match ValidationError(views, pickList, omegaMethod, confidences)
    case Some(e) => Progress(None, None, None, None, Some(e))
    case None =>
      var n, k := |marketWeights|, |views|;
      var names := if assetNames.Some? then assetNames.value else DefaultAssetNames(n);
      var pi := ImpliedEquilibriumReturns(riskAversion, covariance, marketWeights);
      match PickMatrix(k, n, pickList, names)
      case Err(e) => Progress(Some(pi), None, None, None, Some(e))
      case Ok(pick) =>
        match ViewOmega(omega, covariance, tau, pick, confidences, omegaMethod)
        case Err(e) => Progress(Some(pi), None, None, None, Some(e))
        case Ok(o) => PosteriorStages(inv, covariance, tau, pick, o, views, pi)
  }

  /** The last three stages of `allocate`, the ones that invert a matrix, once pi, P and omega are known. */
  function PosteriorStages(inv: Matrix -> Matrix, covariance: Matrix, tau: real, pickMatrix: Matrix, omega: Matrix,
                           views: Vector, pi: Vector): (p: Progress)
    requires PosteriorShapes(covariance, pickMatrix, omega)
    requires |views| == |pickMatrix| && |pi| == |covariance|
    ensures p.impliedEquilibriumReturns == Some(pi)
    ensures p.failure.None? ==> p.weights.Some? && |p.weights.value| == |covariance|
    ensures p.failure.None? && |covariance| > 0 ==> Sum(p.weights.value) == 1.0
  {
    match PosteriorExpectedReturns(inv, covariance, tau, pickMatrix, omega, views, pi)
    case Err(e) => Progress(Some(pi), None, None, None, Some(e))
    case Ok(postReturns) =>
      // the same matrix is inverted again, so this stage succeeds
      var postCov := PosteriorCovariance(inv, covariance, tau, pickMatrix, omega).value;
      match MaxSharpeWeights(inv, postCov, postReturns)
      case Err(e) => Progress(Some(pi), Some(postReturns), Some(postCov), None, Some(e))
      case Ok(w) => Progress(Some(pi), Some(postReturns), Some(postCov), Some(w), None)
  }

  /** A field after a stage: the new value if the stage produced one, else the old value. */
  function Overwrite<T>(previous: Option<T>, computed: Option<T>): Option<T>
  {
    if computed.Some? then computed else previous
  }

  /** Invalid inputs stop the allocation before any matrix is computed. */
  lemma InvalidInputsComputeNothing(inv: Matrix -> Matrix, covariance: Matrix, marketWeights: Vector, views: Vector,
                                    pickList: seq<Pick>, omega: Option<Matrix>, riskAversion: real, tau: real,
                                    omegaMethod: string, confidences: Option<Vector>, assetNames: Option<seq<string>>)
    requires AllocationInputs(covariance, marketWeights, assetNames)
    requires !InputsValid(views, pickList, omegaMethod, confidences)
    ensures var p := Pipeline(inv, covariance, marketWeights, views, pickList, omega, riskAversion, tau,
                              omegaMethod, confidences, assetNames);
      && p.impliedEquilibriumReturns.None? && p.posteriorExpectedReturns.None?
      && p.posteriorCovariance.None? && p.weights.None?
      && p.failure == ValidationError(views, pickList, omegaMethod, confidences)
      && (|views| != |pickList| ==> p.failure == Some(ViewCountMismatch))
      && (|views| == |pickList| && omegaMethod != PriorVariance && omegaMethod != UserConfidences ==>
            p.failure == Some(UnknownOmegaMethod))
  {
  }

  /** The three confidence errors of user_confidences mode; a confidence of exactly 0 passes. */
  lemma ConfidenceChecks(views: Vector, pickList: seq<Pick>, confidences: Option<Vector>)
    requires |views| == |pickList|
    ensures confidences.None? ==> ValidationError(views, pickList, UserConfidences, confidences) == Some(MissingConfidences)
    ensures confidences.Some? && |confidences.value| != |views| ==>
      ValidationError(views, pickList, UserConfidences, confidences) == Some(ConfidenceCountMismatch)
    ensures confidences.Some? && |confidences.value| == |views| &&
            (exists i :: 0 <= i < |views| && confidences.value[i] < 0.0) ==>
      ValidationError(views, pickList, UserConfidences, confidences) == Some(NegativeConfidence)
    ensures confidences.Some? && |confidences.value| == |views| &&
            (forall i :: 0 <= i < |views| ==> confidences.value[i] >= 0.0) ==>
      ValidationError(views, pickList, UserConfidences, confidences).None?
  {
  }

  /**
    A zero confidence passes validation, and the Idzorek step then reports it
    (where numpy would divide by zero), unless the view and asset counts differ.
  */
  lemma ZeroConfidenceReachesIdzorek(inv: Matrix -> Matrix, covariance: Matrix, marketWeights: Vector, views: Vector,
                                     pickList: seq<Pick>, riskAversion: real, tau: real, confidences: Vector,
                                     assetNames: Option<seq<string>>, k: nat)
    requires AllocationInputs(covariance, marketWeights, assetNames)
    requires |views| == |pickList| == |confidences| == |marketWeights|
    requires k < |confidences| && confidences[k] == 0.0
    requires forall i :: 0 <= i < |confidences| ==> confidences[i] >= 0.0
    requires assetNames.Some? ==> |assetNames.value| == |marketWeights|
    requires forall i :: 0 <= i < |pickList| ==>
      KnownAssets(pickList[i], if assetNames.Some? then assetNames.value else DefaultAssetNames(|marketWeights|))
    ensures ValidationError(views, pickList, UserConfidences, Some(confidences)).None?
    ensures Pipeline(inv, covariance, marketWeights, views, pickList, None, riskAversion, tau,
                     UserConfidences, Some(confidences), assetNames).failure == Some(ZeroConfidence)
  {
    var n := |marketWeights|;
    var names := if assetNames.Some? then assetNames.value else DefaultAssetNames(n);
    var pick := PickMatrix(|views|, n, pickList, names);
    assert pick.Ok?;
    DerivedOmegaKeepsShape(covariance, tau, pick.value, Some(confidences), UserConfidences);
    assert !NoZero(confidences);
  }

  /**
    With no views, the allocation returns the market portfolio: the max-Sharpe weights
    are the market-capitalisation weights scaled to sum to one (empty for no assets).
  */
  lemma NoViewsGiveMarketPortfolio(inv: Matrix -> Matrix, covariance: Matrix, marketWeights: Vector,
                                   omega: Option<Matrix>, riskAversion: real, tau: real, omegaMethod: string,
                                   confidences: Option<Vector>, assetNames: Option<seq<string>>)
    requires AllocationInputs(covariance, marketWeights, assetNames)
    requires Pipeline(inv, covariance, marketWeights, [], [], omega, riskAversion, tau,
                      omegaMethod, confidences, assetNames).failure.None?
    ensures var p := Pipeline(inv, covariance, marketWeights, [], [], omega, riskAversion, tau,
                              omegaMethod, confidences, assetNames);
      && p.posteriorExpectedReturns == p.impliedEquilibriumReturns
      && p.posteriorCovariance == Some(AddM(covariance, ScaleM(tau, covariance)))
      && (|marketWeights| > 0 ==>
            Sum(marketWeights) != 0.0 && p.weights == Some(DivV(marketWeights, Sum(marketWeights))))
      && (|marketWeights| == 0 ==> p.weights == Some([]))
  {
    var n := |marketWeights|;
    var names := if assetNames.Some? then assetNames.value else DefaultAssetNames(n);
    var pi := ImpliedEquilibriumReturns(riskAversion, covariance, marketWeights);
    var pick := PickMatrix(0, n, [], names).value;
    var o := ViewOmega(omega, covariance, tau, pick, confidences, omegaMethod).value;
    PosteriorReturnsWithoutViews(inv, covariance, tau, pick, o, [], pi);
    PosteriorCovarianceWithoutViews(inv, covariance, tau, pick, o);
    var postCov := AddM(covariance, ScaleM(tau, covariance));
    var x := Invert(inv, postCov).value;
    if n > 0 {
      MarketPortfolioFromScaledCovariance(covariance, marketWeights, riskAversion, tau, x);
    }
  }

  /** Two sound inverters give the same allocation: the result depends on the inputs alone. */
  lemma PipelineIndependentOfInverter(inv1: Matrix -> Matrix, inv2: Matrix -> Matrix, covariance: Matrix,
                                      marketWeights: Vector, views: Vector, pickList: seq<Pick>, omega: Option<Matrix>,
                                      riskAversion: real, tau: real, omegaMethod: string, confidences: Option<Vector>,
                                      assetNames: Option<seq<string>>)
    requires AllocationInputs(covariance, marketWeights, assetNames)
    requires SoundInverter(inv1) && SoundInverter(inv2)
    ensures Pipeline(inv1, covariance, marketWeights, views, pickList, omega, riskAversion, tau, omegaMethod,
                     confidences, assetNames)
         == Pipeline(inv2, covariance, marketWeights, views, pickList, omega, riskAversion, tau, omegaMethod,
                     confidences, assetNames)
  {
    if ValidationError(views, pickList, omegaMethod, confidences).None? {
      var n, k := |marketWeights|, |views|;
      var names := if assetNames.Some? then assetNames.value else DefaultAssetNames(n);
      var pick := PickMatrix(k, n, pickList, names);
      if pick.Ok? {
        var o := ViewOmega(omega, covariance, tau, pick.value, confidences, omegaMethod);
        if o.Ok? {
          var pi := ImpliedEquilibriumReturns(riskAversion, covariance, marketWeights);
          PosteriorStagesAgree(inv1, inv2, covariance, tau, pick.value, o.value, views, pi);
        }
      }
    }
  }

  /** The stages that invert a matrix give the same results under two sound inverters. */
  lemma PosteriorStagesAgree(inv1: Matrix -> Matrix, inv2: Matrix -> Matrix, covariance: Matrix, tau: real,
                             pickMatrix: Matrix, omega: Matrix, views: Vector, pi: Vector)
    requires PosteriorShapes(covariance, pickMatrix, omega)
    requires |views| == |pickMatrix| && |pi| == |covariance|
    requires SoundInverter(inv1) && SoundInverter(inv2)
    ensures PosteriorStages(inv1, covariance, tau, pickMatrix, omega, views, pi)
         == PosteriorStages(inv2, covariance, tau, pickMatrix, omega, views, pi)
  {
    SoundInvertersAgree(inv1, inv2, ViewCovariance(covariance, tau, pickMatrix, omega));
    var postCov := PosteriorCovariance(inv1, covariance, tau, pickMatrix, omega);
    if postCov.Ok? {
      SoundInvertersAgree(inv1, inv2, postCov.value);
    }
  }

  /**
    The algebra behind NoViewsGiveMarketPortfolio: if x inverts Sigma + tau Sigma and the
    raw weights x (delta Sigma w) have a non-zero sum, normalising them gives w / sum(w).
  */
  lemma {:induction false} MarketPortfolioFromScaledCovariance(covariance: Matrix, marketWeights: Vector, riskAversion: real, tau: real, x: Matrix)
    requires IsMatrix(covariance, |marketWeights|, |marketWeights|)
    requires IsInverse(AddM(covariance, ScaleM(tau, covariance)), x)
    requires Sum(MatVec(x, ImpliedEquilibriumReturns(riskAversion, covariance, marketWeights))) != 0.0
    ensures Sum(marketWeights) != 0.0
    ensures var raw := MatVec(x, ImpliedEquilibriumReturns(riskAversion, covariance, marketWeights));
      DivV(raw, Sum(raw)) == DivV(marketWeights, Sum(marketWeights))
  {
    var w := marketWeights;
    var y := MatVec(x, MatVec(covariance, w));
    var raw := MatVec(x, ImpliedEquilibriumReturns(riskAversion, covariance, w));
    RawWeightsScaled(covariance, marketWeights, riskAversion, x);
    MarketWeightsScaled(covariance, marketWeights, tau, x);
    if 1.0 + tau == 0.0 {
      DegenerateScaling(covariance, marketWeights, riskAversion, x);
    }
    NormaliseScaled(raw, w, y, riskAversion, 1.0 + tau);
  }

  /** Two multiples of the same vector, normalised to sum to one, agree. */
  lemma {:induction false} NormaliseScaled(u: Vector, v: Vector, y: Vector, a: real, b: real)
    requires u == ScaleV(a, y) && v == ScaleV(b, y) && Sum(u) != 0.0 && b != 0.0
    ensures Sum(v) != 0.0 && DivV(u, Sum(u)) == DivV(v, Sum(v))
  {
    SumScale(a, y);
    SumScale(b, y);
    NonzeroFactors(a, Sum(y));
    NonzeroProduct(b, Sum(y));
    NormaliseMultiples(u, v, y, a, b, Sum(u), Sum(v), Sum(y));
  }

  lemma NormaliseMultiples(u: Vector, v: Vector, y: Vector, a: real, b: real, su: real, sv: real, sy: real)
    requires |u| == |y| && |v| == |y|
    requires forall i :: 0 <= i < |y| ==> u[i] == a * y[i] && v[i] == b * y[i]
    requires a != 0.0 && b != 0.0 && sy != 0.0 && su == a * sy && sv == b * sy
    ensures DivV(u, su) == DivV(v, sv)
  {
    forall i | 0 <= i < |y|
      ensures DivV(u, su)[i] == DivV(v, sv)[i]
    {
      CancelFactor(a, b, y[i], sy, u[i], su, v[i], sv);
    }
  }

  /** The raw weights are delta times y, where y = x Sigma w. */
  lemma {:induction false} RawWeightsScaled(covariance: Matrix, marketWeights: Vector, riskAversion: real, x: Matrix)
    requires IsMatrix(covariance, |marketWeights|, |marketWeights|) && IsMatrix(x, |marketWeights|, |marketWeights|)
    ensures MatVec(x, ImpliedEquilibriumReturns(riskAversion, covariance, marketWeights))
         == ScaleV(riskAversion, MatVec(x, MatVec(covariance, marketWeights)))
  {
    MatVecScale(x, riskAversion, MatVec(covariance, marketWeights));
  }

  /** If x inverts Sigma + tau Sigma then w = (1 + tau) y, where y = x Sigma w. */
  lemma {:induction false} MarketWeightsScaled(covariance: Matrix, marketWeights: Vector, tau: real, x: Matrix)
    requires IsMatrix(covariance, |marketWeights|, |marketWeights|)
    requires IsInverse(AddM(covariance, ScaleM(tau, covariance)), x)
    ensures marketWeights == ScaleV(1.0 + tau, MatVec(x, MatVec(covariance, marketWeights)))
  {
    var w := marketWeights;
    var post := AddM(covariance, ScaleM(tau, covariance));
    var v := MatVec(covariance, w);
    MatVecAddM(covariance, ScaleM(tau, covariance), w);
    MatVecScale(covariance, tau, w);
    assert MatVec(post, w) == ScaleV(1.0 + tau, v) by {
      forall i | 0 <= i < |v|
        ensures MatVec(post, w)[i] == (1.0 + tau) * v[i]
      {
        assert MatVec(post, w)[i] == v[i] + tau * v[i];
      }
      assert |MatVec(post, w)| == |v|;
      assert forall i :: 0 <= i < |v| ==> ScaleV(1.0 + tau, v)[i] == (1.0 + tau) * v[i];
    }
    InverseCancels(post, x, w);
    MatVecScale(x, 1.0 + tau, v);
  }

  /** When 1 + tau = 0 the weights vanish, and so do the raw weights. */
  lemma {:induction false} DegenerateScaling(covariance: Matrix, marketWeights: Vector, riskAversion: real, x: Matrix)
    requires IsMatrix(covariance, |marketWeights|, |marketWeights|) && IsMatrix(x, |marketWeights|, |marketWeights|)
    requires marketWeights == ScaleV(0.0, MatVec(x, MatVec(covariance, marketWeights)))
    ensures Sum(ScaleV(riskAversion, MatVec(x, MatVec(covariance, marketWeights)))) == 0.0
  {
    var n := |marketWeights|;
    var y := MatVec(x, MatVec(covariance, marketWeights));
    assert marketWeights == Zeros(n);
    MatVecZeros(covariance, n);
    MatVecZeros(x, n);
    assert y == marketWeights;
    SumScale(0.0, y);
    SumScale(riskAversion, y);
  }

  lemma NonzeroFactors(a: real, b: real)
    requires a * b != 0.0
    ensures a != 0.0 && b != 0.0
  {
  }

  lemma NonzeroProduct(a: real, b: real)
    requires a != 0.0 && b != 0.0
    ensures a * b != 0.0
  {
  }

  lemma CancelFactor(a: real, b: real, yi: real, sy: real, ui: real, su: real, vi: real, sv: real)
    requires a != 0.0 && b != 0.0 && sy != 0.0
    requires ui == a * yi && su == a * sy && vi == b * yi && sv == b * sy
    ensures ui / su == vi / sv
  {
    CancelCommon(a, yi, sy);
    CancelCommon(b, yi, sy);
  }

  lemma CancelCommon(a: real, yi: real, sy: real)
    requires a != 0.0 && sy != 0.0
    ensures (a * yi) / (a * sy) == yi / sy
  {
  }

  // ------------------------------------------------------------- allocator

  /** The allocator object: its four result fields, None until `Allocate` sets them. */
  class BlackLitterman {
    var weights: Option<Vector>
    var impliedEquilibriumReturns: Option<Vector>
    var posteriorExpectedReturns: Option<Vector>
    var posteriorCovariance: Option<Matrix>

    constructor ()
      ensures weights.None? && impliedEquilibriumReturns.None?
      ensures posteriorExpectedReturns.None? && posteriorCovariance.None?
    {
      weights := None;
      impliedEquilibriumReturns := None;
      posteriorExpectedReturns := None;
      posteriorCovariance := None;
    }

    /** `_calculate_max_sharpe_weights`, on the posterior fields, dividing the raw weights in place. */
    method CalculateMaxSharpeWeights(inv: Matrix -> Matrix) returns (r: Result<Vector, Error>)
      requires posteriorCovariance.Some? && posteriorExpectedReturns.Some?
      requires IsMatrix(posteriorCovariance.value, |posteriorExpectedReturns.value|, |posteriorExpectedReturns.value|)
      ensures r == MaxSharpeWeights(inv, posteriorCovariance.value, posteriorExpectedReturns.value)
    {
      var covariance, expected := posteriorCovariance.value, posteriorExpectedReturns.value;
      var x := Invert(inv, covariance);
      if x.Err? {
        return Err(x.error);
      }
      var raw := MatVec(x.value, expected);
      var w := new real[|raw|](i requires 0 <= i < |raw| => raw[i]);
      assert w[..] == raw;
      var s := SumOf(w);
      if w.Length == 0 {
        return Ok(w[..]);
      }
      if s == 0.0 {
        return Err(ZeroWeightSum);
      }
      DivideInPlace(w, s);
      return Ok(w[..]);
    }

    /**
      `allocate`: validate, then overwrite the result fields stage by stage. A failure
      leaves the fields of the stages it did not reach as they were.
    */
    method Allocate(covariance: Matrix, marketCapitalisedWeights: Vector, investorViews: Vector,
                    pickList: seq<Pick>, inv: Matrix -> Matrix, omega: Option<Matrix> := None,
                    riskAversion: real := 2.5, tau: real := 0.05, omegaMethod: string := PriorVariance,
                    viewConfidences: Option<Vector> := None, assetNames: Option<seq<string>> := None)
      returns (failure: Option<Error>)
      requires AllocationInputs(covariance, marketCapitalisedWeights, assetNames)
      modifies this
      ensures var p := Pipeline(inv, covariance, marketCapitalisedWeights, investorViews, pickList, omega,
                                riskAversion, tau, omegaMethod, viewConfidences, assetNames);
        && failure == p.failure
        && impliedEquilibriumReturns == Overwrite(old(impliedEquilibriumReturns), p.impliedEquilibriumReturns)
        && posteriorExpectedReturns == Overwrite(old(posteriorExpectedReturns), p.posteriorExpectedReturns)
        && posteriorCovariance == Overwrite(old(posteriorCovariance), p.posteriorCovariance)
        && weights == Overwrite(old(weights), p.weights)
    {
      ghost var p := Pipeline(inv, covariance, marketCapitalisedWeights, investorViews, pickList, omega,
                              riskAversion, tau, omegaMethod, viewConfidences, assetNames);
      failure := ErrorChecks(investorViews, pickList, omegaMethod, viewConfidences);
      if failure.Some? {
        assert p == Progress(None, None, None, None, failure);
        return;
      }
      var numAssets, numViews := |marketCapitalisedWeights|, |investorViews|;
      var names := if assetNames.Some? then assetNames.value else DefaultAssetNames(numAssets);
      DefaultAssetNamesDistinct(numAssets);
      var pi := ImpliedEquilibriumReturns(riskAversion, covariance, marketCapitalisedWeights);
      impliedEquilibriumReturns := Some(pi);

      var pickMatrix := CreatePickMatrix(numViews, numAssets, pickList, names);
      if pickMatrix.Err? {
        assert p == Progress(Some(pi), None, None, None, Some(pickMatrix.error));
        return Some(pickMatrix.error);
      }
      var viewOmega := ViewOmega(omega, covariance, tau, pickMatrix.value, viewConfidences, omegaMethod);
      if viewOmega.Err? {
        assert p == Progress(Some(pi), None, None, None, Some(viewOmega.error));
        return Some(viewOmega.error);
      }

      var postReturns := PosteriorExpectedReturns(inv, covariance, tau, pickMatrix.value, viewOmega.value, investorViews, pi);
      if postReturns.Err? {
        assert p == Progress(Some(pi), None, None, None, Some(postReturns.error));
        return Some(postReturns.error);
      }
      posteriorExpectedReturns := Some(postReturns.value);

      // the same matrix is inverted again, so this stage succeeds
      var postCov := PosteriorCovariance(inv, covariance, tau, pickMatrix.value, viewOmega.value);
      posteriorCovariance := Some(postCov.value);

      var w := CalculateMaxSharpeWeights(inv);
      if w.Err? {
        assert p == Progress(Some(pi), Some(postReturns.value), Some(postCov.value), None, Some(w.error));
        return Some(w.error);
      }
      weights := Some(w.value);
      assert p == Progress(Some(pi), Some(postReturns.value), Some(postCov.value), Some(w.value), None);
      return None;
    }
  }
}
