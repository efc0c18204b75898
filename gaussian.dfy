/** The Gaussian field builder of qcat/utils/gpu_kernels.py: for each of
    the `nefield` groups of centers, the sum over its `nmlwf` centers of a
    normalised Gaussian evaluated at every query point under the
    minimum-image convention, optionally computed chunk by chunk so that
    the intermediate tensor fits in the accelerator's free memory.

    The Gaussian amplitude itself (the product with the unit cell, the
    norm, `exp` and the normalisation power) is a parameter `kernel` of
    the model: it receives the wrapped fractional difference vector, the
    spread and the displacement magnitude of one center. */
module GaussianField {
  import opened Common
  import opened Chunking

  /** A point or difference vector in fractional (relative) coordinates. */
  datatype Vec3 = Vec3(x: real, y: real, z: real)

  /** A translation by whole lattice vectors, in fractional coordinates. */
  datatype Shift = Shift(x: int, y: int, z: int)

  /** One Gaussian center: its fractional position, its spread and its
      displacement magnitude (one entry each of `r2`, `spread`, `dspl_norm`). */
  datatype Center = Center(pos: Vec3, spread: real, dspl: real)

  /** The amplitude of one center seen from a query point, as a function
      of the wrapped difference, the spread and the displacement. */
  type Kernel = (Vec3, real, real) -> real

  /** A `[nefield, ngrid]` result: one row per group of centers. */
  type Field = seq<seq<real>>

  /** Errors the accelerated path can raise. */
  datatype GaussError =
    | DivisionByZero       // `//` by a zero point cost or a zero chunk size
    | EmptyConcatenation   // `torch.cat` of an empty list (no query points)

  /** `(d + 0.5) % 1 - 0.5` with Python's floor-semantics `%`: the
      representative of `d` modulo 1 in `[-0.5, 0.5)`. */
  function Wrap(d: real): (w: real)
    ensures -0.5 <= w < 0.5
    ensures (d - w).Floor as real == d - w
  {
    var t := d + 0.5;
    t - t.Floor as real - 0.5
  }

  /** Wrapping ignores whole-period translations. */
  lemma WrapTranslation(d: real, k: int)
    ensures Wrap(d + k as real) == Wrap(d)
  {
    var t := d + 0.5;
    var f := t.Floor;
    assert f as real <= t + k as real - k as real < f as real + 1.0;
    assert (t + k as real).Floor == f + k;
  }

  /** Wrap is the minimum image: it returns the only representative of
      `d` modulo 1 that lies in `[-0.5, 0.5)`. */
  lemma WrapUnique(d: real, w: real, k: int)
    requires -0.5 <= w < 0.5
    requires d == w + k as real
    ensures Wrap(d) == w
  {
    var t := d + 0.5;
    assert k as real <= t < k as real + 1.0;
    assert t.Floor == k;
  }

  function Sub(a: Vec3, b: Vec3): Vec3
  {
    Vec3(a.x - b.x, a.y - b.y, a.z - b.z)
  }

  function WrapVec(d: Vec3): Vec3
  {
    Vec3(Wrap(d.x), Wrap(d.y), Wrap(d.z))
  }

  function Translate(p: Vec3, s: Shift): Vec3
  {
    Vec3(p.x + s.x as real, p.y + s.y as real, p.z + s.z as real)
  }

  /** `torch.sum(..., dim=-1)` over the centers of one group, each
      contributing the kernel at the wrapped difference `r1 - r2`. */
  function Amplitude(group: seq<Center>, p: Vec3, kernel: Kernel): real
  {
    if |group| == 0 then 0.0
    else
      var c := group[|group| - 1];
      Amplitude(group[..|group| - 1], p, kernel) + kernel(WrapVec(Sub(p, c.pos)), c.spread, c.dspl)
  }

  /** `gaussian3d_helper`: the `[nefield, ngrid]` field of every group at
      every query point, in the order of the query points. */
  function Helper(r1: seq<Vec3>, centers: seq<seq<Center>>, kernel: Kernel): (f: Field)
    ensures IsField(f, |centers|, |r1|)
  {
    seq(|centers|, k requires 0 <= k < |centers| =>
      seq(|r1|, j requires 0 <= j < |r1| => Amplitude(centers[k], r1[j], kernel)))
  }

  predicate IsField(f: Field, rows: nat, cols: nat)
  {
    |f| == rows && forall k :: 0 <= k < rows ==> |f[k]| == cols
  }

  /** Translating a query point by a whole lattice vector leaves the
      amplitude of every group unchanged (the minimum-image convention). */
  lemma {:induction false} AmplitudeTranslation(group: seq<Center>, p: Vec3, s: Shift, kernel: Kernel)
    ensures Amplitude(group, Translate(p, s), kernel) == Amplitude(group, p, kernel)
  {
    if |group| > 0 {
      var c := group[|group| - 1];
      AmplitudeTranslation(group[..|group| - 1], p, s, kernel);
      var d := Sub(p, c.pos);
      var d' := Sub(Translate(p, s), c.pos);
      assert d'.x == d.x + s.x as real && d'.y == d.y + s.y as real && d'.z == d.z + s.z as real;
      WrapTranslation(d.x, s.x);
      WrapTranslation(d.y, s.y);
      WrapTranslation(d.z, s.z);
      assert WrapVec(d') == WrapVec(d);
    }
  }

  function Translated(r1: seq<Vec3>, shifts: seq<Shift>): seq<Vec3>
    requires |shifts| == |r1|
  {
    seq(|r1|, j requires 0 <= j < |r1| => Translate(r1[j], shifts[j]))
  }

  /** Query points related by full lattice translations give identical
      fields. */
  lemma HelperTranslationInvariant(r1: seq<Vec3>, shifts: seq<Shift>, centers: seq<seq<Center>>, kernel: Kernel)
    requires |shifts| == |r1|
    ensures Helper(Translated(r1, shifts), centers, kernel) == Helper(r1, centers, kernel)
  {
    var moved := Translated(r1, shifts);
    var before := Helper(r1, centers, kernel);
    var after := Helper(moved, centers, kernel);
    forall k | 0 <= k < |centers| ensures after[k] == before[k] {
      forall j | 0 <= j < |r1| ensures after[k][j] == before[k][j] {
        AmplitudeTranslation(centers[k], r1[j], shifts[j], kernel);
      }
    }
  }

  /** `torch.cat([a, b], dim=-1)` for two fields with the same groups. */
  function CatLast(a: Field, b: Field): (c: Field)
    requires |a| == |b|
    ensures |c| == |a|
  {
    seq(|a|, k requires 0 <= k < |a| => a[k] + b[k])
  }

  /** `torch.cat(parts, dim=-1)`, defined for a non-empty list of fields
      that all have `rows` groups. */
  function CatAll(parts: seq<Field>, rows: nat): (c: Field)
    requires |parts| > 0
    requires forall i :: 0 <= i < |parts| ==> |parts[i]| == rows
    ensures |c| == rows
  {
    if |parts| == 1 then parts[0]
    else CatLast(CatAll(parts[..|parts| - 1], rows), parts[|parts| - 1])
  }

  /** Evaluating the helper on two consecutive runs of query points and
      concatenating along the grid axis equals evaluating it on both. */
  lemma HelperSplit(a: seq<Vec3>, b: seq<Vec3>, centers: seq<seq<Center>>, kernel: Kernel)
    ensures Helper(a + b, centers, kernel) == CatLast(Helper(a, centers, kernel), Helper(b, centers, kernel))
  {
    var whole := Helper(a + b, centers, kernel);
    var joined := CatLast(Helper(a, centers, kernel), Helper(b, centers, kernel));
    forall k | 0 <= k < |centers| ensures whole[k] == joined[k] {
      forall j | 0 <= j < |a| + |b| ensures whole[k][j] == joined[k][j] {
        if j < |a| {
          assert (a + b)[j] == a[j];
        } else {
          assert (a + b)[j] == b[j - |a|];
        }
      }
    }
  }

  /** The number of centers per group, `nmlwf` of `r2.shape`. */
  function Width(centers: seq<seq<Center>>): nat
  {
    if |centers| == 0 then 0 else |centers[0]|
  }

  /** `gaussian3d`. Without an accelerator it is the single unchunked
      helper call. With one, it derives the chunk size from the free
      memory, walks the chunks in order and concatenates their fields;
      the result then equals the unchunked field, and the only failures
      are the divisions by zero of lines 32-33 and the concatenation of
      an empty list when there are no query points. */
  method Gaussian3D(accelerated: bool, freeMemory: nat, itemSize: nat,
                    r1: seq<Vec3>, centers: seq<seq<Center>>, kernel: Kernel)
    returns (res: Result<Field, GaussError>)
    ensures !accelerated ==> res == Ok(Helper(r1, centers, kernel))
    ensures accelerated ==>
      var size := ChunkSize(freeMemory, itemSize, |centers|, Width(centers));
      && (size.None? || size.value == 0 ==> res == Err(DivisionByZero))
      && (size.Some? && size.value > 0 && |r1| == 0 ==> res == Err(EmptyConcatenation))
      && (size.Some? && size.value > 0 && |r1| > 0 ==> res.Ok?)
    ensures res.Ok? ==> res.value == Helper(r1, centers, kernel)
  {
    if !accelerated {
      return Ok(Helper(r1, centers, kernel));
    }
    var ngrid := |r1|;
    var size := ChunkSize(freeMemory, itemSize, |centers|, Width(centers));
    if size.None? {
      return Err(DivisionByZero);
    }
    var nr1 := size.value;
    var count := ChunkCount(ngrid, nr1);
    if count.None? {
      return Err(DivisionByZero);
    }
    var lenr1 := count.value;
    var result: seq<Field> := [];
    for i := 0 to lenr1
      invariant |result| == i
      invariant forall c :: 0 <= c < i ==> |result[c]| == |centers|
      invariant i > 0 ==> CatAll(result, |centers|) == Helper(r1[..ChunkHigh(i - 1, nr1, ngrid)], centers, kernel)
    {
      ChunkBounds(ngrid, nr1, lenr1, i);
      var low := i * nr1;
      var high := Min(ngrid, (i + 1) * nr1);
      var part := Helper(r1[low..high], centers, kernel);
      if i > 0 {
        ChunkBounds(ngrid, nr1, lenr1, i - 1);
        assert r1[..low] + r1[low..high] == r1[..high];
        HelperSplit(r1[..low], r1[low..high], centers, kernel);
        assert (result + [part])[..i] == result;
      } else {
        assert r1[low..high] == r1[..high];
      }
      result := result + [part];
    }
    if |result| == 0 {
      return Err(EmptyConcatenation);
    }
    ChunkBounds(ngrid, nr1, lenr1, lenr1 - 1);
    assert r1[..ngrid] == r1;
    return Ok(CatAll(result, |centers|));
  }
}
