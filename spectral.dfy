/** The spectral bookkeeping of the fitting engine
    (qcat/ml_pdep/pdepFIT.py): the eigenvalue substitutions between the
    response operator and its "barred" form, the `|G|/sqrt(4 pi)` column
    scaling and its zero-guarded inverse, the re-diagonalisation wrapper
    `decom2Eigen`, the prefix truncation, and `compute_pdep`, which chains
    them. The dense eigensolvers `eigh` and `oeigh` are parameters. */
module Spectral {
  import opened Common
  import opened LinAlg

  /** Shape errors numpy would raise on the outputs of the foreign
      eigensolvers. */
  datatype SpectralError = ShapeMismatch

  /** `eigval / (1 - eigval)` (line 44); numpy gives an infinity at 1. */
  function ChiToBar(x: real): (y: Ext)
    ensures y.NonFinite? <==> x == 1.0
  {
    if 1.0 - x == 0.0 then NonFinite else Finite(x / (1.0 - x))
  }

  /** `eigval / (1 + eigval)` (line 123); numpy gives an infinity at -1. */
  function Chi0FromBar(y: real): (x: Ext)
    ensures x.NonFinite? <==> y == -1.0
  {
    if 1.0 + y == 0.0 then NonFinite else Finite(y / (1.0 + y))
  }

  /** The substitution of line 123 undoes that of line 44: for `x != 1`
      the barred value `y` has `1 + y != 0` and maps back to `x`. */
  lemma TransformRoundTrip(x: real)
    requires x != 1.0
    ensures ChiToBar(x).Finite?
    ensures var y := ChiToBar(x).v; 1.0 + y != 0.0 && Chi0FromBar(y) == Finite(x)
  {
    var y := x / (1.0 - x);
    assert 1.0 + y == 1.0 / (1.0 - x);
    assert y / (1.0 + y) == x;
  }

  /** And the other way round: for `y != -1` the value of line 123 is not
      1 and line 44 maps it back to `y`. */
  lemma InverseRoundTrip(y: real)
    requires y != -1.0
    ensures Chi0FromBar(y).Finite?
    ensures var x := Chi0FromBar(y).v; x != 1.0 && ChiToBar(x) == Finite(y)
  {
    var x := y / (1.0 + y);
    assert 1.0 - x == 1.0 / (1.0 + y);
    assert x / (1.0 - x) == y;
  }

  function MapChiToBar(vals: seq<real>): (r: seq<Ext>)
    ensures |r| == |vals| && forall i :: 0 <= i < |vals| ==> r[i] == ChiToBar(vals[i])
  {
    seq(|vals|, i requires 0 <= i < |vals| => ChiToBar(vals[i]))
  }

  function MapChi0FromBar(vals: seq<real>): (r: seq<Ext>)
    ensures |r| == |vals| && forall i :: 0 <= i < |vals| ==> r[i] == Chi0FromBar(vals[i])
  {
    seq(|vals|, i requires 0 <= i < |vals| => Chi0FromBar(vals[i]))
  }

  predicate AllFinite(xs: seq<Ext>)
  {
    forall i :: 0 <= i < |xs| ==> xs[i].Finite?
  }

  function Values(xs: seq<Ext>): (r: seq<real>)
    requires AllFinite(xs)
    ensures |r| == |xs| && forall i :: 0 <= i < |xs| ==> xs[i] == Finite(r[i])
  {
    seq(|xs|, i requires 0 <= i < |xs| => xs[i].v)
  }

  /** Element-wise, the barred eigenvalues of line 44 are all finite
      exactly when no input eigenvalue is 1, and then line 123 maps them
      back to the inputs, in order. */
  lemma MapRoundTrip(xs: seq<real>)
    ensures AllFinite(MapChiToBar(xs)) <==> forall i :: 0 <= i < |xs| ==> xs[i] != 1.0
    ensures AllFinite(MapChiToBar(xs)) ==>
      MapChi0FromBar(Values(MapChiToBar(xs))) == seq(|xs|, i requires 0 <= i < |xs| => Finite(xs[i]))
  {
    var bar := MapChiToBar(xs);
    if AllFinite(bar) {
      var back := MapChi0FromBar(Values(bar));
      forall i | 0 <= i < |xs| ensures back[i] == Finite(xs[i]) {
        TransformRoundTrip(xs[i]);
      }
    }
  }

  /** `v * gd4pi` with `gd4pi` of shape `[1, nmill]`: column `j` scaled by
      `g[j]` (line 45). */
  function ScaleColumns(v: CMatrix, g: seq<real>): (r: CMatrix)
    requires IsMatrix(v, |v|, |g|)
    ensures IsMatrix(r, |v|, |g|)
  {
    seq(|v|, i requires 0 <= i < |v| => seq(|g|, j requires 0 <= j < |g| => CScale(v[i][j], g[j])))
  }

  /** One entry of the zero-guarded division: `z / x`, or zero when `x`
      is zero. */
  function DivideEntry(z: Complex, x: real): (w: Complex)
    ensures x == 0.0 ==> w == CZero
    ensures x != 0.0 ==> CScale(w, x) == z
  {
    if x == 0.0 then CZero
    else
      var w := Complex(z.re / x, z.im / x);
      assert w.re * x == z.re && w.im * x == z.im;
      w
  }

  /** `np.divide(v, gd4pi, out=np.zeros_like(v), where=gd4pi != 0)`
      (lines 114-117): the result is exactly zero in every column whose
      factor is zero, whatever `v` holds there, and elsewhere it is the
      unique matrix that the column scaling of line 45 maps back to `v`. */
  function DivideColumns(v: CMatrix, g: seq<real>): (r: CMatrix)
    requires IsMatrix(v, |v|, |g|)
    ensures IsMatrix(r, |v|, |g|)
    ensures forall i, j :: 0 <= i < |v| && 0 <= j < |g| && g[j] == 0.0 ==> r[i][j] == CZero
    ensures forall i, j :: 0 <= i < |v| && 0 <= j < |g| && g[j] != 0.0 ==> CScale(r[i][j], g[j]) == v[i][j]
  {
    seq(|v|, i requires 0 <= i < |v| => seq(|g|, j requires 0 <= j < |g| => DivideEntry(v[i][j], g[j])))
  }

  /** The zero-guarded division undoes the column scaling wherever the
      factor is non-zero and yields exactly zero where it is zero (the
      `G = 0` component). */
  lemma DivideUndoesScale(v: CMatrix, g: seq<real>)
    requires IsMatrix(v, |v|, |g|)
    ensures var r := DivideColumns(ScaleColumns(v, g), g);
      forall i, j :: 0 <= i < |v| && 0 <= j < |g| ==>
        r[i][j] == if g[j] == 0.0 then CZero else v[i][j]
  {
    var r := DivideColumns(ScaleColumns(v, g), g);
    forall i, j | 0 <= i < |v| && 0 <= j < |g|
      ensures r[i][j] == if g[j] == 0.0 then CZero else v[i][j]
    {
      if g[j] != 0.0 {
        var z := v[i][j];
        assert (z.re * g[j]) / g[j] == z.re;
        assert (z.im * g[j]) / g[j] == z.im;
      }
    }
  }

  /** `getChiSpecDecomp`: the barred eigenvalues and the eigenvectors
      rescaled column by column by `gd4pi`. */
  function ChiSpecDecomp(pdepeig: seq<real>, pdepg: CMatrix, gd4pi: seq<real>): (r: (seq<Ext>, CMatrix))
    requires IsMatrix(pdepg, |pdepg|, |gd4pi|)
    ensures |r.0| == |pdepeig| && IsMatrix(r.1, |pdepg|, |gd4pi|)
  {
    (MapChiToBar(pdepeig), ScaleColumns(pdepg, gd4pi))
  }

  /** What a foreign eigensolver returns: the eigenvalues and an array
      whose columns are the eigenvectors. `cols` is the array's second
      dimension, which numpy keeps even when the array has no rows. */
  datatype Eigenpairs<T> = Eigenpairs(vals: seq<real>, vecs: seq<seq<T>>, cols: nat)

  /** `oeigh(vectors, weights, tol)`: the foreign re-diagonaliser. */
  type Rediagonalizer = (CMatrix, seq<real>, real) -> Eigenpairs<Complex>

  /** `scipy.linalg.eigh(qaq, s)`: the foreign generalized eigensolver. */
  type Eigensolver = (Matrix, Matrix) -> Eigenpairs<real>

  /** `decom2Eigen`: hand the transposed vectors to `oeigh` and transpose
      its eigenvectors back into rows. */
  function Decom2Eigen(oeigh: Rediagonalizer, specVal: seq<real>, specVec: CMatrix, nmill: nat, tol: real)
    : (r: Result<(seq<real>, CMatrix), SpectralError>)
    requires IsMatrix(specVec, |specVec|, nmill)
    ensures var out := oeigh(Transpose(specVec, nmill), specVal, tol);
      r.Ok? <==> IsMatrix(out.vecs, |out.vecs|, out.cols)
    ensures r.Ok? ==>
      var out := oeigh(Transpose(specVec, nmill), specVal, tol);
      IsMatrix(out.vecs, |out.vecs|, out.cols) &&
      r.value.0 == out.vals && IsMatrix(r.value.1, out.cols, |out.vecs|) &&
      forall i, m :: 0 <= i < out.cols && 0 <= m < |out.vecs| ==> r.value.1[i][m] == out.vecs[m][i]
  {
    var out := oeigh(Transpose(specVec, nmill), specVal, tol);
    if !IsMatrix(out.vecs, |out.vecs|, out.cols) then Err(ShapeMismatch)
    else Ok((out.vals, Transpose(out.vecs, out.cols)))
  }

  /** Python's `s[:n]` for any integer `n`: a negative `n` drops that many
      entries from the end. */
  function PyPrefix<T>(s: seq<T>, n: int): (r: seq<T>)
    ensures |r| == if n >= 0 then Min(n, |s|) else if |s| + n >= 0 then |s| + n else 0
    ensures r == s[..|r|]
  {
    if n >= 0 then s[..Min(n, |s|)]
    else if |s| + n >= 0 then s[..|s| + n]
    else []
  }

  /** Lines 123-130: apply the inverse substitution and keep the first
      `npdep` eigenpairs, all of them when `npdep` is `None` (the count
      is taken from the eigenvalues). */
  function Finalize(vals: seq<real>, vecs: CMatrix, npdep: Option<int>): (r: (seq<Ext>, CMatrix))
  {
    var chi0 := MapChi0FromBar(vals);
    var n := if npdep.None? then |chi0| else npdep.value;
    (PyPrefix(chi0, n), PyPrefix(vecs, n))
  }

  /** Truncation keeps prefixes, in the re-diagonaliser's order: each kept
      eigenvalue is the inverse substitution of the one at the same index.
      With `npdep = k >= 0` both outputs have `min(k, available)` entries;
      without `npdep` every eigenvalue is kept. When the re-diagonaliser
      returns as many eigenvectors as eigenvalues, both outputs have the
      same length. */
  lemma FinalizeProperties(vals: seq<real>, vecs: CMatrix, npdep: Option<int>)
    ensures var (chi0, kept) := Finalize(vals, vecs, npdep);
      && |chi0| <= |vals| && |kept| <= |vecs|
      && (forall i :: 0 <= i < |chi0| ==> chi0[i] == Chi0FromBar(vals[i]))
      && kept == vecs[..|kept|]
      && (npdep.None? ==> |chi0| == |vals| && |kept| == Min(|vals|, |vecs|))
      && (npdep.Some? && npdep.value >= 0 ==>
            |chi0| == Min(npdep.value, |vals|) && |kept| == Min(npdep.value, |vecs|))
      && (|vals| == |vecs| ==> |chi0| == |kept|)
  {
    var chi0 := MapChi0FromBar(vals);
    var n := if npdep.None? then |chi0| else npdep.value;
    var out := PyPrefix(chi0, n);
    assert out == chi0[..|out|];
    assert forall i :: 0 <= i < |out| ==> out[i] == chi0[i];
  }

  /** `scipy.linalg.eigh(qaq, s)` raises unless both are square and of
      the same size. */
  predicate EighAccepts(qaq: Matrix, s: Matrix)
  {
    IsMatrix(qaq, |qaq|, |qaq|) && IsMatrix(s, |qaq|, |qaq|)
  }

  /** Entry `(i, j)` of `coeff.T @ basis_g` is `sum_a coeff[a][i] * basis_g[a][j]`. */
  lemma ReprojectEntry(coeff: Matrix, k: nat, basis: CMatrix, nmill: nat, i: nat, j: nat)
    requires IsMatrix(coeff, |basis|, k) && IsMatrix(basis, |basis|, nmill)
    requires i < k && j < nmill
    ensures CMatMul(Transpose(LiftMat(coeff), k), basis, nmill)[i][j]
      == CDot(Column(LiftMat(coeff), i), Column(basis, j))
  {
    var t := Transpose(LiftMat(coeff), k);
    assert t[i] == Column(LiftMat(coeff), i);
  }

  /** Lines 111-117: what `decom2Eigen` receives. `eigh` must accept the
      pair, and its eigenvector array must have one row per basis vector
      for `coeff.T @ basis_g`. The eigenvalues are handed on unchanged. The
      vectors are zero in every `G` column with `gd4pi == 0`, and in every
      other column the `gd4pi` scaling maps them back to the reprojection
      `sum_a coeff[a][i] * basis_g[a][j]`. */
  function OeighInput(eigh: Eigensolver, s: Matrix, qaq: Matrix, basis: CMatrix, gd4pi: seq<real>)
    : (r: Result<(seq<real>, CMatrix), SpectralError>)
    requires IsMatrix(basis, |basis|, |gd4pi|)
    ensures var out := eigh(qaq, s);
      r.Ok? <==> EighAccepts(qaq, s) && IsMatrix(out.vecs, |basis|, out.cols)
    ensures r.Ok? ==> var out := eigh(qaq, s);
      && IsMatrix(out.vecs, |basis|, out.cols)
      && r.value.0 == out.vals
      && IsMatrix(r.value.1, out.cols, |gd4pi|)
      && (forall i, j :: 0 <= i < out.cols && 0 <= j < |gd4pi| && gd4pi[j] == 0.0 ==> r.value.1[i][j] == CZero)
      && (forall i, j :: 0 <= i < out.cols && 0 <= j < |gd4pi| && gd4pi[j] != 0.0 ==>
            CScale(r.value.1[i][j], gd4pi[j]) == CDot(Column(LiftMat(out.vecs), i), Column(basis, j)))
  {
    var out := eigh(qaq, s);
    if !EighAccepts(qaq, s) || !IsMatrix(out.vecs, |basis|, out.cols) then Err(ShapeMismatch)
    else
      var fit := CMatMul(Transpose(LiftMat(out.vecs), out.cols), basis, |gd4pi|);
      assert forall i, j :: 0 <= i < out.cols && 0 <= j < |gd4pi| ==>
        fit[i][j] == CDot(Column(LiftMat(out.vecs), i), Column(basis, j)) by {
        forall i, j | 0 <= i < out.cols && 0 <= j < |gd4pi|
          ensures fit[i][j] == CDot(Column(LiftMat(out.vecs), i), Column(basis, j)) {
          ReprojectEntry(out.vecs, out.cols, basis, |gd4pi|, i, j);
        }
      }
      Ok((out.vals, DivideColumns(fit, gd4pi)))
  }

  /** Lines 111-122: solve `qaq x = lambda s x`, reproject, undo the
      scaling and re-diagonalise. It succeeds exactly when `eigh` accepts
      its input with conforming output and `oeigh` returns a rectangular
      array. The result is then `oeigh`'s eigenvalues and its
      eigenvectors as rows. */
  function Rediagonalized(eigh: Eigensolver, oeigh: Rediagonalizer, s: Matrix, qaq: Matrix,
                          basis: CMatrix, gd4pi: seq<real>, tol: real)
    : (r: Result<(seq<real>, CMatrix), SpectralError>)
    requires IsMatrix(basis, |basis|, |gd4pi|)
    ensures var inp := OeighInput(eigh, s, qaq, basis, gd4pi);
      r.Ok? <==> (inp.Ok? &&
        var out := oeigh(Transpose(inp.value.1, |gd4pi|), inp.value.0, tol);
        IsMatrix(out.vecs, |out.vecs|, out.cols))
    ensures r.Ok? ==>
      var inp := OeighInput(eigh, s, qaq, basis, gd4pi);
      var out := oeigh(Transpose(inp.value.1, |gd4pi|), inp.value.0, tol);
      r.value.0 == out.vals && IsMatrix(r.value.1, out.cols, |out.vecs|) &&
      forall i, m :: 0 <= i < out.cols && 0 <= m < |out.vecs| ==> r.value.1[i][m] == out.vecs[m][i]
  {
    match OeighInput(eigh, s, qaq, basis, gd4pi)
    case Err(e) => Err(e)
    case Ok((lam, vecs)) => Decom2Eigen(oeigh, lam, vecs, |gd4pi|, tol)
  }

  /** `compute_pdep`: re-diagonalise, substitute back and truncate. When
      `npdep` is a count, no more than `npdep` eigenpairs come out. */
  function ComputePdep(eigh: Eigensolver, oeigh: Rediagonalizer, s: Matrix, qaq: Matrix,
                       basis: CMatrix, gd4pi: seq<real>, tol: real, npdep: Option<int>)
    : (r: Result<(seq<Ext>, CMatrix), SpectralError>)
    requires IsMatrix(basis, |basis|, |gd4pi|)
    ensures r.Ok? <==> Rediagonalized(eigh, oeigh, s, qaq, basis, gd4pi, tol).Ok?
    ensures r.Ok? && npdep.Some? && npdep.value >= 0 ==>
      |r.value.0| <= npdep.value && |r.value.1| <= npdep.value
  {
    match Rediagonalized(eigh, oeigh, s, qaq, basis, gd4pi, tol)
    case Err(e) => Err(e)
    case Ok((vals, vecs)) =>
      FinalizeProperties(vals, vecs, npdep);
      Ok(Finalize(vals, vecs, npdep))
  }
}
