/** The two matrices the fitting engine builds in the basis space
    (qcat/ml_pdep/pdepFIT.py, `compute_S` and `compute_QAQ`): the overlap
    matrix `S`, either analytic from the projected basis or the exact
    overlap restricted by the surviving-basis mask, and the projected
    operator `QAQ = M diag(v) M^T`. */
module Operators {
  import opened Common
  import opened LinAlg

  /** numpy's IndexError for a boolean mask whose length does not match
      the axis it indexes. */
  datatype OverlapError = MaskMismatch

  /** `(basis_g.conj() @ basis_g.T).real * 2` for an `nbasis x nmill`
      projected basis. */
  function AnalyticOverlap(basis: CMatrix, nmill: nat): (s: Matrix)
    requires IsMatrix(basis, |basis|, nmill)
    ensures IsMatrix(s, |basis|, |basis|)
  {
    TwiceReal(CMatMul(ConjMat(basis), Transpose(basis, nmill), |basis|))
  }

  /** Entry `(i, j)` of the analytic overlap is twice the real inner
      product of the basis vectors `i` and `j`. */
  lemma AnalyticOverlapEntry(basis: CMatrix, nmill: nat, i: nat, j: nat)
    requires IsMatrix(basis, |basis|, nmill)
    requires i < |basis| && j < |basis|
    ensures AnalyticOverlap(basis, nmill)[i][j] == 2.0 * RealInner(basis[i], basis[j])
  {
    ColumnOfTranspose(basis, nmill, j);
    ConjDotReal(basis[i], basis[j]);
  }

  /** The analytic overlap is symmetric with a non-negative diagonal
      (the diagonal entries are twice the squared norms). */
  lemma AnalyticOverlapSymmetric(basis: CMatrix, nmill: nat)
    requires IsMatrix(basis, |basis|, nmill)
    ensures IsSymmetric(AnalyticOverlap(basis, nmill))
    ensures forall i :: 0 <= i < |basis| ==> AnalyticOverlap(basis, nmill)[i][i] >= 0.0
  {
    var s := AnalyticOverlap(basis, nmill);
    forall i, j | 0 <= i < |basis| && 0 <= j < |basis| ensures s[i][j] == s[j][i] {
      AnalyticOverlapEntry(basis, nmill, i, j);
      AnalyticOverlapEntry(basis, nmill, j, i);
      RealInnerSymmetric(basis[i], basis[j]);
    }
    forall i | 0 <= i < |basis| ensures s[i][i] >= 0.0 {
      AnalyticOverlapEntry(basis, nmill, i, i);
      RealInnerSelfNonNegative(basis[i]);
    }
  }

  /** Gram matrices: twice the real inner products of the rows of `b`. */
  predicate IsGram(s: Matrix, b: CMatrix)
    requires forall i :: 0 <= i < |b| ==> |b[i]| == |b[0]|
  {
    IsMatrix(s, |b|, |b|) &&
    forall i, j :: 0 <= i < |b| && 0 <= j < |b| ==> s[i][j] == 2.0 * RealInner(b[i], b[j])
  }

  /** Row `i` of `S @ x` is twice the real inner product of basis vector
      `i` with the combination `sum_j x[j] * b[j]`. */
  lemma {:induction false} GramRow(s: Matrix, b: CMatrix, n: nat, x: seq<real>, i: nat)
    requires IsMatrix(b, |b|, n) && |x| == |b| && i < |b|
    requires IsGram(s, b)
    ensures Dot(s[i], x) == 2.0 * RealInner(b[i], Combine(b, x, n))
  {
    var c := Combine(b, x, n);
    var g := Inners(b, b[i]);
    forall j | 0 <= j < |b| ensures s[i][j] == 2.0 * g[j] {
      RealInnerSymmetric(b[i], b[j]);
    }
    DotCommutes(s[i], x);
    DotScaledRight(x, s[i], g, 2.0);
    RealInnerCombine(b, x, n, b[i]);
    RealInnerSymmetric(c, b[i]);
  }

  /** `x^T S x` of a Gram matrix is twice the squared norm of the
      combination `sum_i x[i] * b[i]`. */
  lemma {:induction false} GramQuadratic(s: Matrix, b: CMatrix, n: nat, x: seq<real>)
    requires IsMatrix(b, |b|, n) && |x| == |b|
    requires IsGram(s, b)
    ensures var c := Combine(b, x, n); Dot(x, MatVec(s, x)) == 2.0 * RealInner(c, c)
  {
    var c := Combine(b, x, n);
    var y := MatVec(s, x);
    var r := Inners(b, c);
    forall i | 0 <= i < |b| ensures y[i] == 2.0 * r[i] {
      GramRow(s, b, n, x, i);
    }
    DotScaledRight(x, y, r, 2.0);
    RealInnerCombine(b, x, n, c);
  }

  /** The analytic overlap is positive semi-definite: for every real
      coefficient vector `x`, `x^T S x` is twice the squared norm of the
      combination `sum_i x[i] * basis[i]`, hence non-negative. */
  lemma {:induction false} AnalyticOverlapPositive(basis: CMatrix, nmill: nat, x: seq<real>)
    requires IsMatrix(basis, |basis|, nmill) && |x| == |basis|
    ensures var c := Combine(basis, x, nmill);
      Dot(x, MatVec(AnalyticOverlap(basis, nmill), x)) == 2.0 * RealInner(c, c)
    ensures Dot(x, MatVec(AnalyticOverlap(basis, nmill), x)) >= 0.0
  {
    var s := AnalyticOverlap(basis, nmill);
    forall i, j | 0 <= i < |basis| && 0 <= j < |basis| ensures s[i][j] == 2.0 * RealInner(basis[i], basis[j]) {
      AnalyticOverlapEntry(basis, nmill, i, j);
    }
    GramQuadratic(s, basis, nmill, x);
    RealInnerSelfNonNegative(Combine(basis, x, nmill));
  }

  function CountTrue(mask: seq<bool>): nat
  {
    if |mask| == 0 then 0
    else CountTrue(mask[..|mask| - 1]) + (if mask[|mask| - 1] then 1 else 0)
  }

  /** The indices where `mask` is true, in increasing order: the rows that
      `a[mask, :]` keeps. */
  function TruePositions(mask: seq<bool>): (p: seq<nat>)
    ensures |p| == CountTrue(mask)
    ensures forall k :: 0 <= k < |p| ==> p[k] < |mask| && mask[p[k]]
    ensures forall k, l :: 0 <= k < l < |p| ==> p[k] < p[l]
    ensures forall i :: 0 <= i < |mask| && mask[i] ==> i in p
  {
    if |mask| == 0 then []
    else
      var n := |mask| - 1;
      TruePositions(mask[..n]) + (if mask[n] then [n] else [])
  }

  /** `a[mask, :]`. */
  function SelectRows(a: Matrix, pos: seq<nat>): (r: Matrix)
    requires forall k :: 0 <= k < |pos| ==> pos[k] < |a|
    ensures |r| == |pos| && forall k :: 0 <= k < |pos| ==> r[k] == a[pos[k]]
  {
    seq(|pos|, k requires 0 <= k < |pos| => a[pos[k]])
  }

  /** `a[:, mask]`. */
  function SelectCols(a: Matrix, cols: nat, pos: seq<nat>): (r: Matrix)
    requires IsMatrix(a, |a|, cols)
    requires forall k :: 0 <= k < |pos| ==> pos[k] < cols
    ensures IsMatrix(r, |a|, |pos|)
    ensures forall i, k :: 0 <= i < |a| && 0 <= k < |pos| ==> r[i][k] == a[i][pos[k]]
  {
    seq(|a|, i requires 0 <= i < |a| => seq(|pos|, k requires 0 <= k < |pos| => a[i][pos[k]]))
  }

  /** `ovm[mask, :][:, mask]` for an exact overlap integral with `|ovm|`
      rows and `cols` columns. Each boolean index fails unless the mask
      is as long as the axis it selects from. */
  function MaskedOverlap(ovm: Matrix, cols: nat, mask: seq<bool>): (r: Result<Matrix, OverlapError>)
    requires IsMatrix(ovm, |ovm|, cols)
    ensures r.Err? <==> |mask| != |ovm| || |mask| != cols
    ensures r.Ok? ==> IsMatrix(r.value, CountTrue(mask), CountTrue(mask))
  {
    var pos := TruePositions(mask);
    if |mask| != |ovm| then Err(MaskMismatch)
    else
      var rows := SelectRows(ovm, pos);
      if |mask| != cols then Err(MaskMismatch)
      else Ok(SelectCols(rows, cols, pos))
  }

  /** Entry `(i, j)` of the masked overlap is the entry of `ovm` at the
      `i`-th and `j`-th surviving basis indices, and the selection keeps
      symmetry. */
  lemma MaskedOverlapEntries(ovm: Matrix, cols: nat, mask: seq<bool>)
    requires IsMatrix(ovm, |ovm|, cols)
    requires |mask| == |ovm| == cols
    ensures var pos := TruePositions(mask);
      var s := MaskedOverlap(ovm, cols, mask).value;
      forall i, j :: 0 <= i < |pos| && 0 <= j < |pos| ==> s[i][j] == ovm[pos[i]][pos[j]]
    ensures IsSymmetric(ovm) ==> IsSymmetric(MaskedOverlap(ovm, cols, mask).value)
  {
    var pos := TruePositions(mask);
    var s := MaskedOverlap(ovm, cols, mask).value;
    assert s == SelectCols(SelectRows(ovm, pos), cols, pos);
    if IsSymmetric(ovm) {
      forall i, j | 0 <= i < |pos| && 0 <= j < |pos| ensures s[i][j] == s[j][i] {
        assert s[i][j] == ovm[pos[i]][pos[j]];
        assert s[j][i] == ovm[pos[j]][pos[i]];
      }
    }
  }

  /** `twoOrbitalMat = basis_g.conj() @ eigvec.T`: shape `nbasis x npdep`. */
  function TwoOrbital(basis: CMatrix, vecs: CMatrix, nmill: nat): (t: CMatrix)
    requires IsMatrix(basis, |basis|, nmill) && IsMatrix(vecs, |vecs|, nmill)
    ensures IsMatrix(t, |basis|, |vecs|)
  {
    CMatMul(ConjMat(basis), Transpose(vecs, nmill), |vecs|)
  }

  /** The coefficients of basis vector `i` against every eigenvector:
      twice the real inner products, row `i` of `twoOrbitalMat.real * 2`. */
  function Coefficients(basis: CMatrix, vecs: CMatrix, i: nat): (c: seq<real>)
    requires i < |basis|
    requires forall p :: 0 <= p < |vecs| ==> |vecs[p]| == |basis[i]|
    ensures |c| == |vecs|
  {
    seq(|vecs|, p requires 0 <= p < |vecs| => 2.0 * RealInner(basis[i], vecs[p]))
  }

  /** `(twoOrbitalMat.real * 2) @ np.diag(eigval) @ ((twoOrbitalMat.T.conj()).real * 2)`. */
  function ProjectedOperator(basis: CMatrix, vecs: CMatrix, vals: seq<real>, nmill: nat): (q: Matrix)
    requires IsMatrix(basis, |basis|, nmill) && IsMatrix(vecs, |vecs|, nmill)
    requires |vals| == |vecs|
    ensures IsMatrix(q, |basis|, |basis|)
  {
    var t := TwoOrbital(basis, vecs, nmill);
    var left := TwiceReal(t);
    var right := TwiceReal(Transpose(ConjMat(t), |vecs|));
    MatMul(MatMul(left, Diag(vals), |vals|), right, |basis|)
  }

  /** Row `a` of `twoOrbitalMat.real * 2` holds the coefficients of basis
      vector `a`. */
  lemma TwiceRealRow(basis: CMatrix, vecs: CMatrix, nmill: nat, a: nat)
    requires IsMatrix(basis, |basis|, nmill) && IsMatrix(vecs, |vecs|, nmill)
    requires a < |basis|
    ensures TwiceReal(TwoOrbital(basis, vecs, nmill))[a] == Coefficients(basis, vecs, a)
  {
    var left := TwiceReal(TwoOrbital(basis, vecs, nmill));
    forall p | 0 <= p < |vecs| ensures left[a][p] == 2.0 * RealInner(basis[a], vecs[p]) {
      ColumnOfTranspose(vecs, nmill, p);
      ConjDotReal(basis[a], vecs[p]);
    }
  }

  /** Column `j` of `(twoOrbitalMat.T.conj()).real * 2` is row `j` of
      `twoOrbitalMat.real * 2`: the second factor is the transpose of the
      first. */
  lemma ConjTransposeColumn(t: CMatrix, n: nat, j: nat)
    requires IsMatrix(t, |t|, n) && j < |t|
    ensures Column(TwiceReal(Transpose(ConjMat(t), n)), j) == TwiceReal(t)[j]
  {
  }

  /** `left` with column `p` scaled by `v[p]`. */
  function ScaleColumns(left: Matrix, vals: seq<real>): (m: Matrix)
    requires IsMatrix(left, |left|, |vals|)
    ensures IsMatrix(m, |left|, |vals|)
  {
    seq(|left|, i requires 0 <= i < |left| => ScaleVec(left[i], vals))
  }

  /** Multiplying by `np.diag(v)` scales column `p` by `v[p]`. */
  lemma DiagProduct(left: Matrix, vals: seq<real>)
    requires IsMatrix(left, |left|, |vals|)
    ensures MatMul(left, Diag(vals), |vals|) == ScaleColumns(left, vals)
  {
    var mid := MatMul(left, Diag(vals), |vals|);
    var scaled := ScaleColumns(left, vals);
    forall i | 0 <= i < |left| ensures mid[i] == scaled[i] {
      forall p | 0 <= p < |vals| ensures mid[i][p] == scaled[i][p] {
        DotUnit(left[i], Column(Diag(vals), p), p);
      }
    }
  }

  /** Entry `(i, j)` of `left @ np.diag(v) @ right`, when column `j` of
      `right` is row `j` of `left`, is the weighted product of rows `i`
      and `j` of `left`. */
  lemma SandwichEntry(left: Matrix, vals: seq<real>, right: Matrix, nb: nat, i: nat, j: nat)
    requires IsMatrix(left, nb, |vals|) && IsMatrix(right, |vals|, nb)
    requires i < nb && j < nb
    requires Column(right, j) == left[j]
    ensures MatMul(MatMul(left, Diag(vals), |vals|), right, nb)[i][j] == Weighted(left[i], vals, left[j])
  {
    DiagProduct(left, vals);
    var mid := ScaleColumns(left, vals);
    DotScaled(left[i], vals, left[j]);
    assert MatMul(mid, right, nb)[i][j] == Dot(mid[i], Column(right, j));
  }

  /** Entry `(i, j)` of QAQ is `sum_p c_i[p] * v[p] * c_j[p]` with the
      coefficients of basis vectors `i` and `j`. */
  lemma ProjectedOperatorEntry(basis: CMatrix, vecs: CMatrix, vals: seq<real>, nmill: nat, i: nat, j: nat)
    requires IsMatrix(basis, |basis|, nmill) && IsMatrix(vecs, |vecs|, nmill)
    requires |vals| == |vecs|
    requires i < |basis| && j < |basis|
    ensures ProjectedOperator(basis, vecs, vals, nmill)[i][j]
      == Weighted(Coefficients(basis, vecs, i), vals, Coefficients(basis, vecs, j))
  {
    var t := TwoOrbital(basis, vecs, nmill);
    TwiceRealRow(basis, vecs, nmill, i);
    TwiceRealRow(basis, vecs, nmill, j);
    ConjTransposeColumn(t, |vecs|, j);
    SandwichEntry(TwiceReal(t), vals, TwiceReal(Transpose(ConjMat(t), |vecs|)), |basis|, i, j);
  }

  /** QAQ is symmetric. */
  lemma ProjectedOperatorSymmetric(basis: CMatrix, vecs: CMatrix, vals: seq<real>, nmill: nat)
    requires IsMatrix(basis, |basis|, nmill) && IsMatrix(vecs, |vecs|, nmill)
    requires |vals| == |vecs|
    ensures IsSymmetric(ProjectedOperator(basis, vecs, vals, nmill))
  {
    var q := ProjectedOperator(basis, vecs, vals, nmill);
    forall i, j | 0 <= i < |basis| && 0 <= j < |basis| ensures q[i][j] == q[j][i] {
      ProjectedOperatorEntry(basis, vecs, vals, nmill, i, j);
      ProjectedOperatorEntry(basis, vecs, vals, nmill, j, i);
      WeightedSymmetric(Coefficients(basis, vecs, i), vals, Coefficients(basis, vecs, j));
    }
  }
}
