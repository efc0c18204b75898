/** `PDEP2AO.run` (qcat/ml_pdep/pdepFIT.py, lines 133-191) as a function
    of the data its collaborators supply: the precision check, the barred
    spectral decomposition, the choice of overlap matrix, the projected
    operator with optional sparsification and its sparse ratio, and
    `compute_pdep` with `npdep` set to the number of input eigenvalues. */
module Fitting {
  import opened Common
  import opened LinAlg
  import opened Operators
  import opened Sparsify
  import opened Spectral

  datatype Precision = Single | Double

  datatype FitError =
    | InvalidPrecision       // the assertion of line 146
    | NonFiniteEigenvalue    // an input eigenvalue of 1 makes line 44 infinite
    | BadMask                // the surviving-basis mask does not fit the exact overlap
    | BadShape               // the eigensolvers returned arrays that do not conform

  /** `assert precision in ['float', 'double']`. */
  function ParsePrecision(p: string): (r: Result<Precision, FitError>)
    ensures r.Ok? <==> p == "float" || p == "double"
    ensures r.Ok? ==> (r.value == Single <==> p == "float")
    ensures r.Err? ==> r.error == InvalidPrecision
  {
    if p == "float" then Ok(Single)
    else if p == "double" then Ok(Double)
    else Err(InvalidPrecision)
  }

  /** What `getAO_G` returns and the pipeline uses: the projected basis
      (`nbasis x nmill`), the mask of surviving basis functions, and the
      real-space overlap when it was requested. */
  datatype Projection = Projection(basis: CMatrix, mask: seq<bool>, overlapR: Option<Matrix>)

  /** The arrays `run` produces: the overlap and projected-operator
      matrices it saves, the sparse ratio it logs, and the fitted
      decomposition it returns. */
  datatype FitOutput = FitOutput(s: Matrix, qaq: Matrix, sparseRatio: Ext, eigval: seq<Ext>, eigvec: CMatrix)

  /** Lines 151 and 160-161: the real-space overlap from `getAO_G` if it
      was computed, otherwise `compute_S`: analytic, or the exact overlap
      `ovm` (with `ovmCols` columns) restricted by the mask. */
  function ChooseOverlap(proj: Projection, nmill: nat, pyscfOverlap: bool, ovm: Matrix, ovmCols: nat)
    : (r: Result<Matrix, FitError>)
    requires IsMatrix(proj.basis, |proj.basis|, nmill)
    requires IsMatrix(ovm, |ovm|, ovmCols)
    ensures proj.overlapR.Some? ==> r == Ok(proj.overlapR.value)
    ensures proj.overlapR.None? && !pyscfOverlap ==> r == Ok(AnalyticOverlap(proj.basis, nmill))
    ensures proj.overlapR.None? && pyscfOverlap ==>
      (r.Err? <==> |proj.mask| != |ovm| || |proj.mask| != ovmCols) &&
      (r.Ok? ==> r.value == MaskedOverlap(ovm, ovmCols, proj.mask).value)
  {
    if proj.overlapR.Some? then Ok(proj.overlapR.value)
    else if !pyscfOverlap then Ok(AnalyticOverlap(proj.basis, nmill))
    else match MaskedOverlap(ovm, ovmCols, proj.mask)
      case Ok(s) => Ok(s)
      case Err(_) => Err(BadMask)
  }

  /** `run`. An unknown precision string fails before anything else is
      looked at, whatever the other inputs are, and no later step fails
      with that error. The eigenvalues `pdepeig` and eigenvectors `pdepg` come from
      the provider, `gd4pi` is the `|G|/sqrt(4 pi)` factor of every plane
      wave, `proj` is the output of `getAO_G`, `ovm` the exact overlap
      integral, and `eigh` and `oeigh` the foreign eigensolvers. */
  function Run(precision: string, pdepeig: seq<real>, pdepg: CMatrix, gd4pi: seq<real>, proj: Projection,
               pyscfOverlap: bool, ovm: Matrix, ovmCols: nat, threshold: Option<real>, tol: real,
               eigh: Eigensolver, oeigh: Rediagonalizer)
    : (r: Result<FitOutput, FitError>)
    requires IsMatrix(pdepg, |pdepeig|, |gd4pi|)
    requires IsMatrix(proj.basis, |proj.basis|, |gd4pi|)
    requires IsMatrix(ovm, |ovm|, ovmCols)
    ensures r == Err(InvalidPrecision) <==> precision != "float" && precision != "double"
  {
    if ParsePrecision(precision).Err? then Err(InvalidPrecision)
    else
      var (bar, vecs) := ChiSpecDecomp(pdepeig, pdepg, gd4pi);
      if !AllFinite(bar) then Err(NonFiniteEigenvalue)
      else
        var npdep := |bar|;
        match ChooseOverlap(proj, |gd4pi|, pyscfOverlap, ovm, ovmCols)
        case Err(e) => Err(e)
        case Ok(s) =>
          var qaq := Threshold(ProjectedOperator(proj.basis, vecs, Values(bar), |gd4pi|), threshold);
          var ratio := SparseRatio(qaq);
          match ComputePdep(eigh, oeigh, s, qaq, proj.basis, gd4pi, tol, Some(npdep))
          case Err(_) => Err(BadShape)
          case Ok((vals, fitted)) => Ok(FitOutput(s, qaq, ratio, vals, fitted))
  }

  /** An input eigenvalue of exactly 1 has no finite barred value. */
  lemma RunNonFinite(precision: string, pdepeig: seq<real>, pdepg: CMatrix, gd4pi: seq<real>,
                     proj: Projection, pyscfOverlap: bool, ovm: Matrix, ovmCols: nat,
                     threshold: Option<real>, tol: real, eigh: Eigensolver, oeigh: Rediagonalizer, k: nat)
    requires IsMatrix(pdepg, |pdepeig|, |gd4pi|)
    requires IsMatrix(proj.basis, |proj.basis|, |gd4pi|)
    requires IsMatrix(ovm, |ovm|, ovmCols)
    requires precision == "float" || precision == "double"
    requires k < |pdepeig| && pdepeig[k] == 1.0
    ensures Run(precision, pdepeig, pdepg, gd4pi, proj, pyscfOverlap, ovm, ovmCols, threshold, tol, eigh, oeigh)
      == Err(NonFiniteEigenvalue)
  {
    var (bar, vecs) := ChiSpecDecomp(pdepeig, pdepg, gd4pi);
    assert bar[k].NonFinite?;
  }

  /** What a successful run guarantees: the saved QAQ is symmetric (also
      after thresholding), the analytic overlap is symmetric, a masked
      symmetric overlap stays symmetric, the sparse ratio lies in [0, 1]
      (or is NaN for an empty QAQ), and no more eigenpairs come out than
      went in. */
  lemma RunOutputProperties(precision: string, pdepeig: seq<real>, pdepg: CMatrix, gd4pi: seq<real>,
                            proj: Projection, pyscfOverlap: bool, ovm: Matrix, ovmCols: nat,
                            threshold: Option<real>, tol: real, eigh: Eigensolver, oeigh: Rediagonalizer)
    requires IsMatrix(pdepg, |pdepeig|, |gd4pi|)
    requires IsMatrix(proj.basis, |proj.basis|, |gd4pi|)
    requires IsMatrix(ovm, |ovm|, ovmCols)
    ensures var r := Run(precision, pdepeig, pdepg, gd4pi, proj, pyscfOverlap, ovm, ovmCols, threshold, tol, eigh, oeigh);
      r.Ok? ==>
        && IsSymmetric(r.value.qaq)
        && |r.value.qaq| == |proj.basis|
        && (proj.overlapR.None? && !pyscfOverlap ==> IsSymmetric(r.value.s))
        && (proj.overlapR.None? && pyscfOverlap && IsSymmetric(ovm) ==> IsSymmetric(r.value.s))
        && r.value.sparseRatio == SparseRatio(r.value.qaq)
        && (r.value.sparseRatio.Finite? ==> 0.0 <= r.value.sparseRatio.v <= 1.0)
        && |r.value.eigval| <= |pdepeig| && |r.value.eigvec| <= |pdepeig|
  {
    var r := Run(precision, pdepeig, pdepg, gd4pi, proj, pyscfOverlap, ovm, ovmCols, threshold, tol, eigh, oeigh);
    if r.Ok? {
      var (bar, vecs) := ChiSpecDecomp(pdepeig, pdepg, gd4pi);
      var q := ProjectedOperator(proj.basis, vecs, Values(bar), |gd4pi|);
      ProjectedOperatorSymmetric(proj.basis, vecs, Values(bar), |gd4pi|);
      ThresholdSymmetric(q, threshold);
      if proj.overlapR.None? && !pyscfOverlap {
        AnalyticOverlapSymmetric(proj.basis, |gd4pi|);
      }
      if proj.overlapR.None? && pyscfOverlap && IsSymmetric(ovm) {
        MaskedOverlapEntries(ovm, ovmCols, proj.mask);
      }
    }
  }
}
