/** Exact linear algebra over reals and complex numbers (pairs of reals):
    the numpy operations the fitting pipeline applies to dense arrays
    (`conj`, `.T`, `.real`, `@`, `np.diag`). A matrix is a sequence of
    rows; functions that need the column count of a possibly empty matrix
    take it as a parameter, as a numpy shape would carry it. */
module LinAlg {

  datatype Complex = Complex(re: real, im: real)

  const CZero := Complex(0.0, 0.0)

  function Conj(z: Complex): Complex
  {
    Complex(z.re, -z.im)
  }

  function CAdd(a: Complex, b: Complex): Complex
  {
    Complex(a.re + b.re, a.im + b.im)
  }

  function CMul(a: Complex, b: Complex): Complex
  {
    Complex(a.re * b.re - a.im * b.im, a.re * b.im + a.im * b.re)
  }

  /** `z * x` for a real factor `x`. */
  function CScale(z: Complex, x: real): Complex
  {
    Complex(z.re * x, z.im * x)
  }

  /** A real number as a complex one (numpy's upcast in a mixed product). */
  function Lift(x: real): Complex
  {
    Complex(x, 0.0)
  }

  type Matrix = seq<seq<real>>

  type CMatrix = seq<seq<Complex>>

  predicate IsMatrix<T>(m: seq<seq<T>>, rows: nat, cols: nat)
  {
    |m| == rows && forall r :: 0 <= r < rows ==> |m[r]| == cols
  }

  predicate IsSymmetric(m: Matrix)
  {
    IsMatrix(m, |m|, |m|) && forall i, j :: 0 <= i < |m| && 0 <= j < |m| ==> m[i][j] == m[j][i]
  }

  /** `u @ w` for two real vectors of the same length. */
  function Dot(u: seq<real>, w: seq<real>): real
    requires |u| == |w|
  {
    if |u| == 0 then 0.0
    else Dot(u[..|u| - 1], w[..|w| - 1]) + u[|u| - 1] * w[|w| - 1]
  }

  /** `u @ w` for two complex vectors of the same length. */
  function CDot(u: seq<Complex>, w: seq<Complex>): Complex
    requires |u| == |w|
  {
    if |u| == 0 then CZero
    else CAdd(CDot(u[..|u| - 1], w[..|w| - 1]), CMul(u[|u| - 1], w[|w| - 1]))
  }

  /** Column `j` of a matrix whose rows all reach past `j`. */
  function Column<T>(m: seq<seq<T>>, j: nat): (c: seq<T>)
    requires forall r :: 0 <= r < |m| ==> j < |m[r]|
    ensures |c| == |m| && forall r :: 0 <= r < |m| ==> c[r] == m[r][j]
  {
    seq(|m|, r requires 0 <= r < |m| => m[r][j])
  }

  /** `m.T` of a `|m| x cols` matrix. */
  function Transpose<T>(m: seq<seq<T>>, cols: nat): (t: seq<seq<T>>)
    requires IsMatrix(m, |m|, cols)
    ensures IsMatrix(t, cols, |m|)
    ensures forall c, r :: 0 <= c < cols && 0 <= r < |m| ==> t[c][r] == m[r][c]
  {
    seq(cols, c requires 0 <= c < cols => seq(|m|, r requires 0 <= r < |m| => m[r][c]))
  }

  /** The columns of a transpose are the rows of the original. */
  lemma ColumnOfTranspose<T>(m: seq<seq<T>>, cols: nat, j: nat)
    requires IsMatrix(m, |m|, cols) && j < |m|
    ensures Column(Transpose(m, cols), j) == m[j]
  {
  }

  /** `a @ b` for real matrices `|a| x |b|` and `|b| x cols`. */
  function MatMul(a: Matrix, b: Matrix, cols: nat): (p: Matrix)
    requires forall i :: 0 <= i < |a| ==> |a[i]| == |b|
    requires IsMatrix(b, |b|, cols)
    ensures IsMatrix(p, |a|, cols)
  {
    seq(|a|, i requires 0 <= i < |a| => seq(cols, j requires 0 <= j < cols => Dot(a[i], Column(b, j))))
  }

  /** `a @ b` for complex matrices `|a| x |b|` and `|b| x cols`. */
  function CMatMul(a: CMatrix, b: CMatrix, cols: nat): (p: CMatrix)
    requires forall i :: 0 <= i < |a| ==> |a[i]| == |b|
    requires IsMatrix(b, |b|, cols)
    ensures IsMatrix(p, |a|, cols)
  {
    seq(|a|, i requires 0 <= i < |a| => seq(cols, j requires 0 <= j < cols => CDot(a[i], Column(b, j))))
  }

  function ConjVec(u: seq<Complex>): (c: seq<Complex>)
    ensures |c| == |u|
  {
    seq(|u|, m requires 0 <= m < |u| => Conj(u[m]))
  }

  /** `m.conj()`. */
  function ConjMat(m: CMatrix): (c: CMatrix)
    ensures |c| == |m| && forall r :: 0 <= r < |m| ==> c[r] == ConjVec(m[r])
  {
    seq(|m|, r requires 0 <= r < |m| => ConjVec(m[r]))
  }

  /** `m.real * 2`. */
  function TwiceReal(m: CMatrix): (t: Matrix)
    ensures |t| == |m|
    ensures forall r :: 0 <= r < |m| ==> |t[r]| == |m[r]|
    ensures forall r, c :: 0 <= r < |m| && 0 <= c < |m[r]| ==> t[r][c] == 2.0 * m[r][c].re
  {
    seq(|m|, r requires 0 <= r < |m| => seq(|m[r]|, c requires 0 <= c < |m[r]| => 2.0 * m[r][c].re))
  }

  /** A real matrix as a complex one. */
  function LiftMat(m: Matrix): (c: CMatrix)
    ensures |c| == |m|
    ensures forall r :: 0 <= r < |m| ==> |c[r]| == |m[r]|
    ensures forall r, k :: 0 <= r < |m| && 0 <= k < |m[r]| ==> c[r][k] == Lift(m[r][k])
  {
    seq(|m|, r requires 0 <= r < |m| => seq(|m[r]|, k requires 0 <= k < |m[r]| => Lift(m[r][k])))
  }

  /** `np.diag(v)`: the square matrix with `v` on its diagonal. */
  function Diag(v: seq<real>): (d: Matrix)
    ensures IsMatrix(d, |v|, |v|)
    ensures forall i, j :: 0 <= i < |v| && 0 <= j < |v| ==> d[i][j] == if i == j then v[i] else 0.0
  {
    seq(|v|, i requires 0 <= i < |v| => seq(|v|, j requires 0 <= j < |v| => if i == j then v[i] else 0.0))
  }

  /** The real inner product of two complex vectors viewed as real vectors
      of twice the length: the sum of `Re u * Re w + Im u * Im w`. */
  function RealInner(u: seq<Complex>, w: seq<Complex>): real
    requires |u| == |w|
  {
    if |u| == 0 then 0.0
    else RealInner(u[..|u| - 1], w[..|w| - 1]) + (u[|u| - 1].re * w[|w| - 1].re + u[|u| - 1].im * w[|w| - 1].im)
  }

  /** `Re(conj(u) @ w)` is the real inner product of `u` and `w`. */
  lemma {:induction false} ConjDotReal(u: seq<Complex>, w: seq<Complex>)
    requires |u| == |w|
    ensures CDot(ConjVec(u), w).re == RealInner(u, w)
  {
    if |u| > 0 {
      var n := |u| - 1;
      assert ConjVec(u)[..n] == ConjVec(u[..n]);
      ConjDotReal(u[..n], w[..n]);
    }
  }

  lemma {:induction false} RealInnerSymmetric(u: seq<Complex>, w: seq<Complex>)
    requires |u| == |w|
    ensures RealInner(u, w) == RealInner(w, u)
  {
    if |u| > 0 {
      RealInnerSymmetric(u[..|u| - 1], w[..|w| - 1]);
    }
  }

  lemma {:induction false} RealInnerSelfNonNegative(u: seq<Complex>)
    ensures RealInner(u, u) >= 0.0
  {
    if |u| > 0 {
      var z := u[|u| - 1];
      RealInnerSelfNonNegative(u[..|u| - 1]);
      assert z.re * z.re >= 0.0 && z.im * z.im >= 0.0;
    }
  }

  /** The weighted product `sum_p a[p] * v[p] * b[p]`. */
  function Weighted(a: seq<real>, v: seq<real>, b: seq<real>): real
    requires |a| == |v| == |b|
  {
    if |a| == 0 then 0.0
    else Weighted(a[..|a| - 1], v[..|v| - 1], b[..|b| - 1]) + a[|a| - 1] * v[|v| - 1] * b[|b| - 1]
  }

  lemma {:induction false} WeightedSymmetric(a: seq<real>, v: seq<real>, b: seq<real>)
    requires |a| == |v| == |b|
    ensures Weighted(a, v, b) == Weighted(b, v, a)
  {
    if |a| > 0 {
      var n := |a| - 1;
      WeightedSymmetric(a[..n], v[..n], b[..n]);
      assert a[n] * v[n] * b[n] == b[n] * v[n] * a[n];
    }
  }

  /** A dot product with a vector whose only possibly non-zero entry is at
      index `q` picks out the product at `q`. */
  lemma {:induction false} DotUnit(u: seq<real>, w: seq<real>, q: nat)
    requires |u| == |w| && q < |u|
    requires forall m :: 0 <= m < |w| && m != q ==> w[m] == 0.0
    ensures Dot(u, w) == u[q] * w[q]
  {
    var n := |u| - 1;
    if n == q {
      DotZero(u[..n], w[..n]);
    } else {
      DotUnit(u[..n], w[..n], q);
    }
  }

  lemma {:induction false} DotZero(u: seq<real>, w: seq<real>)
    requires |u| == |w|
    requires forall m :: 0 <= m < |w| ==> w[m] == 0.0
    ensures Dot(u, w) == 0.0
  {
    if |u| > 0 {
      DotZero(u[..|u| - 1], w[..|w| - 1]);
    }
  }

  /** `a * v` entry by entry. */
  function ScaleVec(a: seq<real>, v: seq<real>): (s: seq<real>)
    requires |a| == |v|
    ensures |s| == |a|
  {
    seq(|a|, p requires 0 <= p < |a| => a[p] * v[p])
  }

  /** Scaling the entries of `a` by `v` and then taking the dot product
      with `b` is the weighted product. */
  lemma {:induction false} DotScaled(a: seq<real>, v: seq<real>, b: seq<real>)
    requires |a| == |v| == |b|
    ensures Dot(ScaleVec(a, v), b) == Weighted(a, v, b)
  {
    if |a| > 0 {
      var n := |a| - 1;
      var s, s' := ScaleVec(a, v), ScaleVec(a[..n], v[..n]);
      assert forall p :: 0 <= p < n ==> s[..n][p] == s'[p];
      assert s[..n] == s';
      DotScaled(a[..n], v[..n], b[..n]);
    }
  }

  /** `x @ y` is symmetric. */
  lemma {:induction false} DotCommutes(u: seq<real>, w: seq<real>)
    requires |u| == |w|
    ensures Dot(u, w) == Dot(w, u)
  {
    if |u| > 0 {
      DotCommutes(u[..|u| - 1], w[..|w| - 1]);
    }
  }

  /** A dot product with a vector scaled entry by entry by `k`. */
  lemma {:induction false} DotScaledRight(x: seq<real>, y: seq<real>, z: seq<real>, k: real)
    requires |x| == |y| == |z|
    requires forall i :: 0 <= i < |y| ==> y[i] == k * z[i]
    ensures Dot(x, y) == k * Dot(x, z)
  {
    if |x| > 0 {
      var n := |x| - 1;
      DotScaledRight(x[..n], y[..n], z[..n], k);
      assert x[n] * y[n] == k * (x[n] * z[n]);
    }
  }

  /** `m @ x` for an `|m| x |x|` matrix. */
  function MatVec(m: Matrix, x: seq<real>): (y: seq<real>)
    requires IsMatrix(m, |m|, |x|)
    ensures |y| == |m| && forall i :: 0 <= i < |m| ==> y[i] == Dot(m[i], x)
  {
    seq(|m|, i requires 0 <= i < |m| => Dot(m[i], x))
  }

  function Zeros(n: nat): (z: seq<Complex>)
    ensures |z| == n && forall m :: 0 <= m < n ==> z[m] == CZero
  {
    seq(n, m requires 0 <= m < n => CZero)
  }

  function AddVec(u: seq<Complex>, w: seq<Complex>): (s: seq<Complex>)
    requires |u| == |w|
    ensures |s| == |u| && forall m :: 0 <= m < |u| ==> s[m] == CAdd(u[m], w[m])
  {
    seq(|u|, m requires 0 <= m < |u| => CAdd(u[m], w[m]))
  }

  function ScaleCVec(u: seq<Complex>, x: real): (s: seq<Complex>)
    ensures |s| == |u| && forall m :: 0 <= m < |u| ==> s[m] == CScale(u[m], x)
  {
    seq(|u|, m requires 0 <= m < |u| => CScale(u[m], x))
  }

  /** The real linear combination `sum_i x[i] * b[i]` of the rows of an
      `|b| x n` complex matrix. */
  function Combine(b: CMatrix, x: seq<real>, n: nat): (c: seq<Complex>)
    requires |x| == |b| && IsMatrix(b, |b|, n)
    ensures |c| == n
  {
    if |b| == 0 then Zeros(n)
    else
      var k := |b| - 1;
      AddVec(Combine(b[..k], x[..k], n), ScaleCVec(b[k], x[k]))
  }

  /** The real inner products of every row of `b` with `w`. */
  function Inners(b: CMatrix, w: seq<Complex>): (r: seq<real>)
    requires forall i :: 0 <= i < |b| ==> |b[i]| == |w|
    ensures |r| == |b| && forall i :: 0 <= i < |b| ==> r[i] == RealInner(b[i], w)
  {
    seq(|b|, i requires 0 <= i < |b| => RealInner(b[i], w))
  }

  lemma {:induction false} RealInnerZeros(w: seq<Complex>)
    ensures RealInner(Zeros(|w|), w) == 0.0
  {
    if |w| > 0 {
      var n := |w| - 1;
      assert Zeros(|w|)[..n] == Zeros(n);
      RealInnerZeros(w[..n]);
    }
  }

  /** The real inner product is additive in its first argument. */
  lemma {:induction false} RealInnerAdd(u: seq<Complex>, v: seq<Complex>, w: seq<Complex>)
    requires |u| == |v| == |w|
    ensures RealInner(AddVec(u, v), w) == RealInner(u, w) + RealInner(v, w)
  {
    if |u| > 0 {
      var n := |u| - 1;
      assert AddVec(u, v)[..n] == AddVec(u[..n], v[..n]);
      RealInnerAdd(u[..n], v[..n], w[..n]);
    }
  }

  /** The real inner product is homogeneous in its first argument. */
  lemma {:induction false} RealInnerScale(u: seq<Complex>, x: real, w: seq<Complex>)
    requires |u| == |w|
    ensures RealInner(ScaleCVec(u, x), w) == x * RealInner(u, w)
  {
    if |u| > 0 {
      var n := |u| - 1;
      var s := ScaleCVec(u, x);
      assert s[..n] == ScaleCVec(u[..n], x);
      RealInnerScale(u[..n], x, w[..n]);
      var a, b, r := u[n], w[n], RealInner(u[..n], w[..n]);
      assert RealInner(s, w) == x * r + (s[n].re * b.re + s[n].im * b.im);
      assert s[n].re * b.re + s[n].im * b.im == x * (a.re * b.re + a.im * b.im);
      assert x * r + x * (a.re * b.re + a.im * b.im) == x * (r + (a.re * b.re + a.im * b.im));
    }
  }

  /** The real inner product of a linear combination of rows with `w` is
      the same combination of the rows' inner products with `w`. */
  lemma {:induction false} RealInnerCombine(b: CMatrix, x: seq<real>, n: nat, w: seq<Complex>)
    requires |x| == |b| && IsMatrix(b, |b|, n) && |w| == n
    ensures RealInner(Combine(b, x, n), w) == Dot(x, Inners(b, w))
  {
    if |b| == 0 {
      RealInnerZeros(w);
    } else {
      var k := |b| - 1;
      RealInnerCombine(b[..k], x[..k], n, w);
      RealInnerAdd(Combine(b[..k], x[..k], n), ScaleCVec(b[k], x[k]), w);
      RealInnerScale(b[k], x[k], w);
      assert Inners(b, w)[..k] == Inners(b[..k], w);
    }
  }
}
