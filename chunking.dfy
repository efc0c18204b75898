/** The integer bookkeeping of the memory-budgeted Gaussian field builder
    (qcat/utils/gpu_kernels.py, lines 29-38): how many query points fit in
    one chunk, how many chunks there are, and which half-open range of
    query points each chunk covers. Python's `//` and Dafny's `/` agree
    here because every divisor is positive. */
module Chunking {
  import opened Common

  /** Bytes one query point costs: `itemsize * nefield * nmlwf * 3 * 10`,
      the size of its slice of the `[nefield, chunk, nmlwf, 3]`
      intermediate tensor times a safety factor of ten. */
  function PointCost(itemSize: nat, nefield: nat, nmlwf: nat): nat
  {
    itemSize * nefield * nmlwf * 3 * 10
  }

  /** `nr1 = free_memory // PointCost`; `None` is Python's
      ZeroDivisionError when the cost is zero. The result is the largest
      number of points whose cost fits in the free memory. */
  function ChunkSize(freeMemory: nat, itemSize: nat, nefield: nat, nmlwf: nat): (r: Option<nat>)
    ensures r.None? <==> PointCost(itemSize, nefield, nmlwf) == 0
    ensures r.Some? ==>
      r.value * PointCost(itemSize, nefield, nmlwf) <= freeMemory
      < (r.value + 1) * PointCost(itemSize, nefield, nmlwf)
    ensures r.Some? ==> (r.value == 0 <==> freeMemory < PointCost(itemSize, nefield, nmlwf))
  {
    var d := PointCost(itemSize, nefield, nmlwf);
    if d == 0 then None
    else
      FloorQuotient(freeMemory, d);
      Some(freeMemory / d)
  }

  /** The Euclidean quotient of a natural number by a positive divisor is
      its floor quotient. */
  lemma FloorQuotient(x: nat, d: nat)
    requires d > 0
    ensures (x / d) * d <= x < (x / d + 1) * d
    ensures x / d == 0 <==> x < d
  {
    assert x == (x / d) * d + x % d;
  }

  /** `c` is the ceiling of `n / d`: the fewest chunks of `d` points
      that hold `n` points. */
  predicate IsCeilQuotient(c: nat, n: nat, d: nat)
  {
    n <= c * d && (c == 0 || (c - 1) * d < n)
  }

  /** `lenr1 = (ngrid - 1) // nr1 + 1`; `None` is the ZeroDivisionError
      raised when `nr1` is zero. For `ngrid == 0` the floor division gives
      -1, so there are no chunks at all. */
  function ChunkCount(ngrid: nat, nr1: nat): (r: Option<nat>)
    ensures r.None? <==> nr1 == 0
    ensures r.Some? ==> IsCeilQuotient(r.value, ngrid, nr1)
    ensures r.Some? ==> (r.value == 0 <==> ngrid == 0)
  {
    if nr1 == 0 then None
    else
      var q := (ngrid - 1) / nr1;
      assert ngrid - 1 == q * nr1 + (ngrid - 1) % nr1;
      assert q >= -1 by {
        if q <= -2 { MulLeq(q, -2, nr1); }
      }
      Some(q + 1)
  }

  lemma MulLeq(a: int, b: int, d: nat)
    requires a <= b
    ensures a * d <= b * d
  {
  }

  /** First point of chunk `i`: `low = i * nr1`. */
  function ChunkLow(i: nat, nr1: nat): nat
  {
    i * nr1
  }

  /** One past the last point of chunk `i`: `high = min(ngrid, (i + 1) * nr1)`. */
  function ChunkHigh(i: nat, nr1: nat, ngrid: nat): nat
  {
    Min(ngrid, (i + 1) * nr1)
  }

  /** Every chunk of the loop is a non-empty range inside `[0, ngrid)` of at
      most `nr1` points; every chunk but the last has exactly `nr1` points
      and ends where the next one starts, and the last one ends at `ngrid`. */
  lemma ChunkBounds(ngrid: nat, nr1: nat, lenr1: nat, i: nat)
    requires ChunkCount(ngrid, nr1) == Some(lenr1)
    requires i < lenr1
    ensures ChunkLow(i, nr1) < ChunkHigh(i, nr1, ngrid) <= ngrid
    ensures ChunkHigh(i, nr1, ngrid) - ChunkLow(i, nr1) <= nr1
    ensures i + 1 < lenr1 ==>
      ChunkHigh(i, nr1, ngrid) - ChunkLow(i, nr1) == nr1 &&
      ChunkHigh(i, nr1, ngrid) == ChunkLow(i + 1, nr1)
    ensures i + 1 == lenr1 ==> ChunkHigh(i, nr1, ngrid) == ngrid
  {
    MulLeq(i, lenr1 - 1, nr1);
    if i + 1 < lenr1 {
      MulLeq(i + 1, lenr1 - 1, nr1);
    }
  }

  /** Chunks come in increasing order and do not overlap. */
  lemma ChunksOrdered(ngrid: nat, nr1: nat, lenr1: nat, i: nat, k: nat)
    requires ChunkCount(ngrid, nr1) == Some(lenr1)
    requires i < k < lenr1
    ensures ChunkHigh(i, nr1, ngrid) <= ChunkLow(k, nr1)
  {
    MulLeq(i + 1, k, nr1);
  }

  /** Every point of `[0, ngrid)` lies in exactly one chunk, the one with
      index `j / nr1`; with ChunkBounds this says the chunks partition
      `[0, ngrid)`. */
  lemma ChunkMembership(ngrid: nat, nr1: nat, lenr1: nat, j: nat, i: nat)
    requires ChunkCount(ngrid, nr1) == Some(lenr1)
    requires j < ngrid && i < lenr1
    ensures j / nr1 < lenr1
    ensures ChunkLow(i, nr1) <= j < ChunkHigh(i, nr1, ngrid) <==> i == j / nr1
  {
    var q := j / nr1;
    assert j == q * nr1 + j % nr1;
    assert q * nr1 <= j < (q + 1) * nr1;
    if q >= lenr1 {
      MulLeq(lenr1, q, nr1);
    }
    if i < q {
      MulLeq(i + 1, q, nr1);
    } else if i > q {
      MulLeq(q + 1, i, nr1);
    }
  }
}
