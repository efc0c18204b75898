/** Optional hard-threshold sparsification of the projected operator and
    the sparse ratio reported afterwards (qcat/ml_pdep/pdepFIT.py, lines
    165-169). */
module Sparsify {
  import opened Common
  import opened LinAlg

  /** Python truthiness of `qaq_threshold`: `None` and zero are falsy and
      skip the thresholding. */
  predicate Applies(t: Option<real>)
  {
    t.Some? && t.value != 0.0
  }

  /** The magnitude below which entries are zeroed: `abs(qaq_threshold)`
      when the threshold applies, and 0 otherwise (no magnitude is below
      0, so a cut-off of 0 changes nothing). */
  function Cutoff(t: Option<real>): (c: real)
    ensures c >= 0.0
    ensures c > 0.0 <==> Applies(t)
    ensures Applies(t) ==> c == t.value || c == -t.value
  {
    if Applies(t) then Abs(t.value) else 0.0
  }

  /** `if qaq_threshold: QAQ = np.where(np.abs(QAQ) < abs(qaq_threshold), 0.0, QAQ)`. */
  function Threshold(q: Matrix, t: Option<real>): Matrix
  {
    if Applies(t) then
      var cut := Abs(t.value);
      seq(|q|, i requires 0 <= i < |q| =>
        seq(|q[i]|, j requires 0 <= j < |q[i]| => if Abs(q[i][j]) < cut then 0.0 else q[i][j]))
    else q
  }

  /** The shape is kept; an entry whose magnitude is below the cut-off
      becomes 0 and every other entry is unchanged. A falsy threshold
      therefore changes nothing. */
  lemma ThresholdEntries(q: Matrix, t: Option<real>)
    ensures |Threshold(q, t)| == |q|
    ensures forall i :: 0 <= i < |q| ==> |Threshold(q, t)[i]| == |q[i]|
    ensures forall i, j :: 0 <= i < |q| && 0 <= j < |q[i]| ==>
      Threshold(q, t)[i][j] == if Abs(q[i][j]) < Cutoff(t) then 0.0 else q[i][j]
    ensures !Applies(t) ==> Threshold(q, t) == q
  {
  }

  /** Only the magnitude of the threshold matters. */
  lemma ThresholdSignIgnored(q: Matrix, x: real)
    ensures Threshold(q, Some(-x)) == Threshold(q, Some(x))
  {
  }

  /** Thresholding twice with the same threshold is thresholding once. */
  lemma ThresholdIdempotent(q: Matrix, t: Option<real>)
    ensures Threshold(Threshold(q, t), t) == Threshold(q, t)
  {
    var once := Threshold(q, t);
    var twice := Threshold(once, t);
    ThresholdEntries(q, t);
    ThresholdEntries(once, t);
    forall i | 0 <= i < |q| ensures twice[i] == once[i] {
      forall j | 0 <= j < |q[i]| ensures twice[i][j] == once[i][j] {
        if Abs(q[i][j]) < Cutoff(t) {
          assert once[i][j] == 0.0;
        }
      }
    }
  }

  /** Thresholding a symmetric matrix keeps it symmetric. */
  lemma ThresholdSymmetric(q: Matrix, t: Option<real>)
    requires IsSymmetric(q)
    ensures IsSymmetric(Threshold(q, t))
  {
    ThresholdEntries(q, t);
  }

  function RowZeros(row: seq<real>): nat
  {
    if |row| == 0 then 0
    else RowZeros(row[..|row| - 1]) + (if row[|row| - 1] == 0.0 then 1 else 0)
  }

  /** `(QAQ == 0.0).sum()`. */
  function ZeroCount(q: Matrix): nat
  {
    if |q| == 0 then 0
    else ZeroCount(q[..|q| - 1]) + RowZeros(q[|q| - 1])
  }

  /** `QAQ.size`. */
  function Size(q: Matrix): nat
  {
    if |q| == 0 then 0
    else Size(q[..|q| - 1]) + |q[|q| - 1]|
  }

  lemma {:induction false} RowZerosBounded(row: seq<real>)
    ensures RowZeros(row) <= |row|
  {
    if |row| > 0 {
      RowZerosBounded(row[..|row| - 1]);
    }
  }

  lemma {:induction false} ZeroCountBounded(q: Matrix)
    ensures ZeroCount(q) <= Size(q)
  {
    if |q| > 0 {
      ZeroCountBounded(q[..|q| - 1]);
      RowZerosBounded(q[|q| - 1]);
    }
  }

  /** A row whose zeros are all zeros of another row of the same length
      has no more zeros. */
  lemma {:induction false} RowZerosMonotone(a: seq<real>, b: seq<real>)
    requires |a| == |b|
    requires forall j :: 0 <= j < |a| && a[j] == 0.0 ==> b[j] == 0.0
    ensures RowZeros(a) <= RowZeros(b)
  {
    if |a| > 0 {
      RowZerosMonotone(a[..|a| - 1], b[..|b| - 1]);
    }
  }

  lemma {:induction false} ZeroCountMonotone(a: Matrix, b: Matrix)
    requires |a| == |b|
    requires forall i :: 0 <= i < |a| ==> |a[i]| == |b[i]|
    requires forall i, j :: 0 <= i < |a| && 0 <= j < |a[i]| && a[i][j] == 0.0 ==> b[i][j] == 0.0
    ensures ZeroCount(a) <= ZeroCount(b)
  {
    if |a| > 0 {
      var n := |a| - 1;
      ZeroCountMonotone(a[..n], b[..n]);
      RowZerosMonotone(a[n], b[n]);
    }
  }

  /** A larger cut-off never lowers the number of zeros. */
  lemma ThresholdZeroCountMonotone(q: Matrix, t1: Option<real>, t2: Option<real>)
    requires Cutoff(t1) <= Cutoff(t2)
    ensures ZeroCount(Threshold(q, t1)) <= ZeroCount(Threshold(q, t2))
  {
    ThresholdEntries(q, t1);
    ThresholdEntries(q, t2);
    ZeroCountMonotone(Threshold(q, t1), Threshold(q, t2));
  }

  /** `(QAQ == 0.0).sum() / QAQ.size`; numpy gives NaN for an empty matrix. */
  function SparseRatio(q: Matrix): (r: Ext)
    ensures r.NonFinite? <==> Size(q) == 0
    ensures r.Finite? ==> 0.0 <= r.v <= 1.0
  {
    if Size(q) == 0 then NonFinite
    else
      var z, n := ZeroCount(q) as real, Size(q) as real;
      ZeroCountBounded(q);
      RatioBounds(z, n);
      Finite(z / n)
  }

  /** Thresholding keeps the size. */
  lemma {:induction false} ThresholdSize(q: Matrix, t: Option<real>)
    ensures Size(Threshold(q, t)) == Size(q)
  {
    if |q| > 0 && Applies(t) {
      var n := |q| - 1;
      ThresholdSize(q[..n], t);
      assert Threshold(q, t)[..n] == Threshold(q[..n], t);
    }
  }

  /** Increasing the threshold never decreases the reported sparse ratio. */
  lemma SparseRatioMonotone(q: Matrix, t1: Option<real>, t2: Option<real>)
    requires Cutoff(t1) <= Cutoff(t2)
    requires Size(q) > 0
    ensures var r1, r2 := SparseRatio(Threshold(q, t1)), SparseRatio(Threshold(q, t2));
      r1.Finite? && r2.Finite? && r1.v <= r2.v
  {
    ThresholdSize(q, t1);
    ThresholdSize(q, t2);
    ThresholdZeroCountMonotone(q, t1, t2);
    DivMonotone(ZeroCount(Threshold(q, t1)) as real, ZeroCount(Threshold(q, t2)) as real, Size(q) as real);
  }

  lemma DivMonotone(a: real, b: real, n: real)
    requires a <= b && n > 0.0
    ensures a / n <= b / n
  {
    assert b / n - a / n == (b - a) / n;
  }

  lemma RatioBounds(z: real, n: real)
    requires 0.0 <= z <= n && n > 0.0
    ensures 0.0 <= z / n <= 1.0
  {
    DivMonotone(0.0, z, n);
    DivMonotone(z, n, n);
    assert n / n == 1.0;
  }
}
