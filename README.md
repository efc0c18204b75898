# Fitting a response-function decomposition onto atomic orbitals: integer and array bookkeeping

This project models, in Dafny, the deterministic bookkeeping around the
numerical kernels of two files of the `qcat` package:

* `qcat/utils/gpu_kernels.py` — the Gaussian field builder. `gaussian3d`
  splits the query points into chunks sized from the free accelerator
  memory, evaluates `gaussian3d_helper` on each chunk in order and
  concatenates the results along the grid axis. The helper wraps every
  fractional difference into `[-0.5, 0.5)` (minimum image) before the
  Gaussian is evaluated.
* `qcat/ml_pdep/pdepFIT.py` — the fitting engine `PDEP2AO`. Its steps
  are: the eigenvalue substitution `x/(1-x)` and the `|G|/sqrt(4 pi)`
  column scaling of `getChiSpecDecomp`; the overlap matrix `S` of
  `compute_S` (analytic, or the exact overlap restricted by the
  surviving-basis mask); the projected operator `QAQ` of `compute_QAQ`;
  the optional hard threshold of `QAQ` and its sparse ratio; the
  zero-guarded division, re-diagonalisation wrapper, inverse substitution
  `x/(1+x)` and prefix truncation of `compute_pdep`; and the precision
  check and data flow of `run`.

Numbers are exact: floats are `real`, complex numbers are pairs of reals
(`LinAlg.Complex`), and a numpy division by zero that would give an
infinity or NaN is the value `NonFinite` of `Common.Ext`. The foreign
numerical kernels are function-typed parameters. These are the Gaussian
amplitude (`GaussianField.Kernel`), `scipy.linalg.eigh`
(`Spectral.Eigensolver`) and `oeigh` (`Spectral.Rediagonalizer`). Data that
collaborators produce is an input: free memory, whether an accelerator
exists, the provider's eigenpairs, `gd4pi`, the output of `getAO_G`, and
the exact overlap integral.

Modules: `Common` (Option, Result, Ext, Min, Abs); `Chunking` (chunk size,
count and ranges); `GaussianField` (wrap, helper, the chunked
`Gaussian3D` method); `LinAlg` (complex numbers, dot products, `@`, `.T`,
`conj`, `np.diag`); `Operators` (`S`, masked `S`, `QAQ`); `Sparsify`
(threshold, zero count, sparse ratio); `Spectral` (substitutions, column
scale and divide, `decom2Eigen`, truncation, `compute_pdep`); `Fitting`
(`run`).

Behaviour of the code worth noting:

* On the accelerated path with no query points, the chunk count is 0 and
  `torch.cat([])` raises. `Gaussian3D` returns `EmptyConcatenation`
  there, while the unaccelerated path returns an empty field.
* `npdep` is sliced with Python's `s[:n]`. A negative `npdep` (allowed by
  `tcddrf2PDEP`) drops entries from the end (`Spectral.PyPrefix`). The
  truncated length is therefore `min(npdep, available)` only when `npdep`
  is non-negative.
* The threshold test is Python truthiness. `None` and `0` skip it, and
  the sign of the threshold is ignored.
* `%` in the wrap is `torch.remainder`, which rounds toward negative
  infinity. It is written with `Floor`.
* `tcddrf2PDEP` (lines 193-214) is `Spectral.ComputePdep` with
  `Some(npdep)` for an arbitrary integer, plus I/O.

## Model

| member | source | states |
|---|---|---|
| `Chunking.ChunkSize` | qcat/utils/gpu_kernels.py:32 | `nr1` is the floor of free memory over `itemsize*nefield*nmlwf*3*10`: `nr1*cost <= free < (nr1+1)*cost`. It fails (ZeroDivisionError) exactly when the cost is 0, and it is 0 exactly when free memory is below one point's cost |
| `Chunking.ChunkCount` | qcat/utils/gpu_kernels.py:33 | `(ngrid-1)//nr1 + 1` is the ceiling of `ngrid/nr1`, 0 exactly when `ngrid == 0`; it fails exactly when `nr1 == 0` |
| `Chunking.ChunkBounds` | qcat/utils/gpu_kernels.py:35-37 | every chunk `[i*nr1, min(ngrid,(i+1)*nr1))` is non-empty, lies within `[0, ngrid)` and has at most `nr1` points. Every chunk but the last has exactly `nr1` points and ends where the next begins. The last ends at `ngrid` |
| `Chunking.ChunksOrdered` | qcat/utils/gpu_kernels.py:35-37 | an earlier chunk ends no later than a later one starts (increasing, pairwise disjoint) |
| `Chunking.ChunkMembership` | qcat/utils/gpu_kernels.py:35-38 | each grid point `j < ngrid` lies in chunk `i` iff `i == j / nr1`, and that chunk exists: the chunks cover `[0, ngrid)` exactly once |
| `GaussianField.Wrap` | qcat/utils/gpu_kernels.py:53 | `(d+0.5)%1-0.5` lies in `[-0.5, 0.5)` and differs from `d` by an integer |
| `GaussianField.WrapTranslation` | qcat/utils/gpu_kernels.py:53 | `Wrap(d + k) == Wrap(d)` for every integer `k` |
| `GaussianField.WrapUnique` | qcat/utils/gpu_kernels.py:53 | any `w` in `[-0.5, 0.5)` that differs from `d` by an integer is `Wrap(d)` (the minimum image) |
| `GaussianField.Helper` | qcat/utils/gpu_kernels.py:42-57 | the helper's result has shape `[nefield, ngrid]` |
| `GaussianField.AmplitudeTranslation` | qcat/utils/gpu_kernels.py:52-57 | moving a query point by a whole lattice vector does not change any group's summed amplitude |
| `GaussianField.HelperTranslationInvariant` | qcat/utils/gpu_kernels.py:52-57 | query points related by full lattice translations give identical fields |
| `GaussianField.HelperSplit` | qcat/utils/gpu_kernels.py:40 | the helper on `a + b` equals the concatenation along the grid axis of the helper on `a` and on `b` |
| `GaussianField.CatLast` | qcat/utils/gpu_kernels.py:40 | concatenating along the grid axis keeps the number of groups |
| `GaussianField.CatAll` | qcat/utils/gpu_kernels.py:40 | `torch.cat` of a non-empty list of fields keeps the number of groups |
| `GaussianField.Gaussian3D` | qcat/utils/gpu_kernels.py:21-40 | without an accelerator the result is the single unchunked helper call. With one, it fails with DivisionByZero exactly when the chunk size is undefined or 0, and with EmptyConcatenation when there are no points; otherwise it succeeds. Any success equals the unchunked helper, in input order |
| `LinAlg.ConjDotReal` | qcat/ml_pdep/pdepFIT.py:90 | `Re(conj(u) @ w)` is the real inner product `sum Re u Re w + Im u Im w` |
| `Operators.AnalyticOverlap` | qcat/ml_pdep/pdepFIT.py:90 | `S` is `nbasis x nbasis` |
| `Operators.AnalyticOverlapEntry` | qcat/ml_pdep/pdepFIT.py:90 | `S[i][j]` is twice the real inner product of basis vectors `i` and `j` |
| `Operators.AnalyticOverlapSymmetric` | qcat/ml_pdep/pdepFIT.py:90 | `S` is symmetric with a non-negative diagonal |
| `Operators.AnalyticOverlapPositive` | qcat/ml_pdep/pdepFIT.py:90 | `S` is positive semi-definite: for every real `x`, `x^T S x` equals twice the squared norm of `sum_i x[i] * basis[i]`, so it is never negative |
| `Operators.TruePositions` | qcat/ml_pdep/pdepFIT.py:93 | the indices a boolean mask keeps, which both `[mask, :]` and `[:, mask]` select, are exactly the true positions of the mask. They are strictly increasing, and there are as many as the mask has true entries |
| `Operators.MaskedOverlap` | qcat/ml_pdep/pdepFIT.py:93 | `ovm[mask,:][:,mask]` fails (IndexError) exactly when the mask length differs from a dimension of `ovm`. Otherwise it is `k x k` for `k` = number of true entries |
| `Operators.MaskedOverlapEntries` | qcat/ml_pdep/pdepFIT.py:93 | after the row selection and then the column selection, entry `(i, j)` is `ovm[p_i][p_j]` for the increasing true positions `p`; a symmetric `ovm` gives a symmetric result |
| `Operators.TwoOrbital` | qcat/ml_pdep/pdepFIT.py:100 | `basis_g.conj() @ eigvec.T` is `nbasis x npdep` |
| `Operators.Coefficients` | qcat/ml_pdep/pdepFIT.py:100-101 | one coefficient per eigenvector: twice the real inner product with the basis vector |
| `Operators.TwiceRealRow` | qcat/ml_pdep/pdepFIT.py:100-101 | row `a` of `twoOrbitalMat.real*2` is the coefficient vector of basis vector `a` |
| `Operators.ConjTransposeColumn` | qcat/ml_pdep/pdepFIT.py:101 | `(twoOrbitalMat.T.conj()).real*2` is the transpose of `twoOrbitalMat.real*2` |
| `Operators.ScaleColumns` | qcat/ml_pdep/pdepFIT.py:101 | scaling columns keeps the shape |
| `Operators.DiagProduct` | qcat/ml_pdep/pdepFIT.py:101 | `M @ np.diag(v)` scales column `p` of `M` by `v[p]` |
| `Operators.SandwichEntry` | qcat/ml_pdep/pdepFIT.py:101 | entry `(i, j)` of `M @ diag(v) @ M^T` is `sum_p M[i][p] v[p] M[j][p]` |
| `Operators.ProjectedOperator` | qcat/ml_pdep/pdepFIT.py:96-101 | `QAQ` is `nbasis x nbasis` |
| `Operators.ProjectedOperatorEntry` | qcat/ml_pdep/pdepFIT.py:100-101 | `QAQ[i][j] = sum_p c_i[p] v[p] c_j[p]` with `c_i[p] = 2 Re(conj(basis_i) . eigvec_p)` |
| `Operators.ProjectedOperatorSymmetric` | qcat/ml_pdep/pdepFIT.py:100-101 | `QAQ` is symmetric |
| `Sparsify.Cutoff` | qcat/ml_pdep/pdepFIT.py:165-167 | the effective cut-off is never negative. It is positive exactly when the threshold is truthy, and it is then `threshold` or `-threshold`, i.e. `abs(threshold)`. A falsy threshold gives 0 |
| `Sparsify.ThresholdEntries` | qcat/ml_pdep/pdepFIT.py:165-168 | the shape is kept. An entry with `|x|` below the cut-off becomes 0 and every other entry is unchanged. A falsy threshold leaves `QAQ` unchanged |
| `Sparsify.ThresholdSignIgnored` | qcat/ml_pdep/pdepFIT.py:167 | thresholds `t` and `-t` give the same matrix |
| `Sparsify.ThresholdIdempotent` | qcat/ml_pdep/pdepFIT.py:165-168 | thresholding twice equals thresholding once |
| `Sparsify.ThresholdSymmetric` | qcat/ml_pdep/pdepFIT.py:168 | thresholding a symmetric matrix keeps it symmetric |
| `Sparsify.ThresholdSize` | qcat/ml_pdep/pdepFIT.py:168 | thresholding keeps the entry count |
| `Sparsify.ZeroCountBounded` | qcat/ml_pdep/pdepFIT.py:169 | the zero count never exceeds the entry count |
| `Sparsify.ThresholdZeroCountMonotone` | qcat/ml_pdep/pdepFIT.py:165-169 | a larger cut-off never lowers the zero count |
| `Sparsify.SparseRatio` | qcat/ml_pdep/pdepFIT.py:169 | the ratio of exact zeros to entries lies in `[0, 1]`; it is NaN exactly for an empty matrix |
| `Sparsify.SparseRatioMonotone` | qcat/ml_pdep/pdepFIT.py:165-169 | increasing the threshold never decreases the sparse ratio |
| `Spectral.ChiToBar` | qcat/ml_pdep/pdepFIT.py:44 | `x/(1-x)` is non-finite exactly at `x == 1` |
| `Spectral.Chi0FromBar` | qcat/ml_pdep/pdepFIT.py:123 | `y/(1+y)` is non-finite exactly at `y == -1` |
| `Spectral.TransformRoundTrip` | qcat/ml_pdep/pdepFIT.py:44 | for `x != 1`, `y = x/(1-x)` has `1+y != 0` and `y/(1+y) == x` |
| `Spectral.InverseRoundTrip` | qcat/ml_pdep/pdepFIT.py:123 | for `y != -1`, `x = y/(1+y)` is not 1 and `x/(1-x) == y` |
| `Spectral.MapRoundTrip` | qcat/ml_pdep/pdepFIT.py:123 | the element-wise barred eigenvalues of line 44 are all finite exactly when no input eigenvalue is 1. In that case the element-wise line 123 gives back the inputs, index by index |
| `Spectral.ScaleColumns` | qcat/ml_pdep/pdepFIT.py:45 | broadcasting `* gd4pi` keeps the shape |
| `Spectral.DivideColumns` | qcat/ml_pdep/pdepFIT.py:114-117 | for every input, the zero-guarded division keeps the shape and is exactly 0 in every column with `gd4pi[j] == 0`. In every other column, scaling by `gd4pi[j]` gives back the input: the division is undone by the scaling of line 45 |
| `Spectral.DivideUndoesScale` | qcat/ml_pdep/pdepFIT.py:114-117 | the other direction: dividing a `gd4pi`-scaled matrix gives back the original entry where `gd4pi[j] != 0`, and gives 0 where `gd4pi[j] == 0` |
| `Spectral.ChiSpecDecomp` | qcat/ml_pdep/pdepFIT.py:43-45 | one barred eigenvalue per input eigenvalue; the eigenvectors keep their shape |
| `Spectral.PyPrefix` | qcat/ml_pdep/pdepFIT.py:128-129 | `s[:n]` is a prefix of `s` of Python's length (`min(n, len)` for `n >= 0`, `max(0, len+n)` otherwise) |
| `Spectral.FinalizeProperties` | qcat/ml_pdep/pdepFIT.py:123-130 | outputs are prefixes, in the solver's order, and each kept eigenvalue is `y/(1+y)` of the same index. With `npdep = k >= 0` both lengths are `min(k, available)`; with `None` every eigenvalue is kept. Equal input lengths give equal output lengths |
| `Spectral.ReprojectEntry` | qcat/ml_pdep/pdepFIT.py:112 | entry `(i, j)` of `coeff.T @ basis_g` is `sum_a coeff[a][i] * basis_g[a][j]` |
| `Spectral.OeighInput` | qcat/ml_pdep/pdepFIT.py:111-117 | the step succeeds exactly when `eigh` gets square `qaq` and `s` of one size and returns one eigenvector row per basis vector. On success, `eigh`'s eigenvalues reach `oeigh` unchanged. The vectors are exactly 0 in every `G` column with `gd4pi == 0`, and elsewhere scaling by `gd4pi` gives back the reprojection `sum_a coeff[a][i] * basis_g[a][j]` |
| `Spectral.Rediagonalized` | qcat/ml_pdep/pdepFIT.py:111-122 | succeeds exactly when that input step succeeds and `oeigh` returns a rectangular array (its column count kept even with no rows). It then returns `oeigh`'s eigenvalues, and its eigenvector columns transposed into rows |
| `Spectral.ComputePdep` | qcat/ml_pdep/pdepFIT.py:104-130 | succeeds exactly when the re-diagonalisation does. With a count `npdep >= 0`, at most `npdep` eigenvalues and eigenvectors come out |
| `Fitting.ParsePrecision` | qcat/ml_pdep/pdepFIT.py:145-146 | accepts exactly `'float'` (single) and `'double'`; anything else is InvalidPrecision |
| `Fitting.ChooseOverlap` | qcat/ml_pdep/pdepFIT.py:151-161 | it uses the real-space overlap if `getAO_G` computed one, else the analytic `S`, else the masked exact overlap. The last fails exactly on a mask/shape mismatch |
| `Fitting.Run` | qcat/ml_pdep/pdepFIT.py:133-191 | `run` returns InvalidPrecision exactly when the precision is neither `'float'` nor `'double'`, whatever the other inputs; no later step fails with that error |
| `Fitting.RunNonFinite` | qcat/ml_pdep/pdepFIT.py:149 | an input eigenvalue of exactly 1 stops the model with NonFiniteEigenvalue |
| `Fitting.RunOutputProperties` | qcat/ml_pdep/pdepFIT.py:160-185 | after a successful run: the saved `QAQ` is `nbasis x nbasis` and symmetric, even after thresholding. The analytic `S` is symmetric, and so is a masked symmetric overlap. The sparse ratio is that of the saved `QAQ` and lies in `[0, 1]` when finite. At most `npdep` (the input count) eigenpairs come out |

## Left out

- The Gaussian amplitude: the product with the unit cell, `linalg.norm`, `exp`, the `** 1.5` normalisation and the division by `spread`. These are floating-point transcendental numerics; the model passes them in as the `kernel` parameter.
- CUDA device selection, `torch.cuda.mem_get_info` and the device transfers: the accelerator is the boolean `accelerated` and the free memory is a natural-number input. The CPU path returns a tensor and the accelerated path a numpy array; the model does not distinguish the two.
- Floating-point rounding and the float32/complex64 casts of `run` (lines 153-158): all arithmetic is exact, so the precision only has to be valid.
- FFTs, basis evaluation, `clear_basis`, the angular-momentum filter and the normalisations of `getAO_G` (lines 56-82), and `gd4pi` (lines 37-40). They are foreign or transcendental, so their outputs are inputs to the model.
- `scipy.linalg.eigh` and `oeigh`. They are foreign eigensolvers and are parameters, so their own guarantees are not modelled: `X^T S X = I`, the tolerance filter, and idempotence of re-diagonalisation. The model keeps only the shape conditions: `eigh` rejects a `qaq` and `s` that are not square matrices of one size (`Spectral.EighAccepts`), and `coeff.T @ basis_g` needs one coefficient row per basis vector. Positive definiteness of `s`, which `eigh` also needs, is not checked.
- Ragged eigenvector arrays: when `oeigh`'s array is not rectangular, `Spectral.Decom2Eigen` reports ShapeMismatch. A numpy array cannot be ragged, so this branch only exists because a sequence of rows can be.
- `Fitting.Run`: an input eigenvalue of exactly 1 stops the model at once with NonFiniteEigenvalue. numpy would instead carry the infinity into `QAQ`, making its entries infinite or NaN. S.npy and QAQ.npy would still be written, and then `scipy.linalg.eigh` (which checks finiteness by default) would raise ValueError at line 111. Exact reals cannot represent that infinity, so the model stops before it arises. It does not model the files written before the failure. Run's other guarantees are stated in `Fitting.RunOutputProperties`.
- `compute_S` with its default `mask=None`: numpy then adds axes instead of selecting. `run` always passes the mask from `getAO_G`, so the model always takes a mask.
- File system and external writers: the existence checks in the constructor (lines 30-32), `os.makedirs`, the JSON and `.npy` saving, `write_wstat`, logging and timing. These are I/O.
- The constructor's providers `qe_io`, `QEProvider`, `pyscfHelper` and `pbc_intor`: they are foreign calls whose results are inputs.
