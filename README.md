# FPFS shapelet moments — a Dafny model

This project models the measurement core of FPFS, the Fourier Power Function
Shapelets shear estimator. The core has four parts.

- `fpfsTask` is built from a PSF's Fourier power. It chooses a shapelet scale
  `sigma` by clamping the PSF's naive radius times `beta` to `[1, 4]`. It
  searches for the truncation radius `rlim`, beyond which the shapelet Gaussian
  is negligible next to the PSF power. It keeps the shapelet basis up to radial
  order 4, reshaped into 25 planes, of which three are used: `M00`, `M22`
  (real and imaginary parts) and `M40`.
- For each galaxy power the task:
  1. deconvolves it by the PSF power inside the `rlim` window;
  2. projects it on the retained shapelet modes;
  3. optionally re-fits the noise power from the pixels outside a larger window;
  4. projects the noise-bias term `noiFit² + 2·noiFit·(galPow − noiFit)` onto
     products of the modes, giving the moment covariances.

  A list of galaxies is measured in order, and each measurement overwrites the
  task's `noiFit` slot.
- `fpfsM2E` turns moments into ellipticities, responses and flux ratios. With
  `rev`, it first applies the second-order noise-bias revision. `fpfsM2Err`
  turns moments and covariances into measurement errors.
- The `imgutil` helpers the core relies on are also modelled:
  - `gauss_kernel`'s argument validation;
  - `getFouPow`'s noise subtraction;
  - `getRnaive`'s pixel count;
  - the Laguerre recurrence and the population of the `shapelets2D` table;
  - `fitNoiPow`'s mask and template combination;
  - `cut_img`.

Modules:

- `Common` (`common.dfy`): optional values, the Python exceptions the core
  raises, square real grids, and complex numbers.
- `ImgUtil` (`imgutil.dfy`): the image utilities.
- `FpfsBase` (`fpfs_base.dfy`): the class `FpfsTask` and the specification
  functions its methods are proved against: the window, the truncation search,
  deconvolution, the moment sums, and the record of one measurement.
- `FpfsEstimate` (`fpfs_estimate.dfy`): the catalogue-level estimators.
- `FpfsRevision` (`fpfs_revision.dfy`): the noise-bias revision of
  `fpfsM2E`, stated as the equations each revised field solves.

Where the source changes state, the model does too. `FpfsTask` is a class with
`rlim`, `indX` and `noiFit` as mutable fields, and its methods declare exactly
which fields they modify. `deconvolvePow`'s output, `fitNoiPow`'s mask and
`shapelets2D`'s tables are arrays filled by loops. Every such method is proved
equal to a pure specification function, and the properties are proved about
those functions.

Numerical primitives are parameters of the model:

- the FFT: the power grids are given as inputs;
- `exp`, `sqrt` and `π`:
  - the PSF Gaussian envelope `gauss(dist, sigma)`;
  - the naive radius `naiveRadius(count)`;
  - the per-cell radius, envelope and unit phase of the shapelet basis;
  - the per-mode normalisation `norm(c1, d1)`;
- the least-squares solver `lstsq`.

## Model

| member | source | states |
|---|---|---|
| ImgUtil.GaussKernel | fpfs/imgutil.py:98-112 | Succeeds exactly when `ny` and `nx` are ints, `sigma` is an int or float, and `sigma > 0`. Otherwise it raises the source's TypeError or ValueError with the source's message, in the source's order. Shifting is refused only for the rfft variant. The kernel records the requested shape and variant. |
| ImgUtil.FouPow | fpfs/imgutil.py:145-150 | A float noise level subtracts `noiPow * n²` from every cell. An array subtracts cell by cell. Any other value leaves the power unchanged. |
| ImgUtil.FloatFloorIsUniformArray | fpfs/imgutil.py:146-149 | Subtracting a float noise level equals subtracting the constant array of `noiPow * size`. |
| ImgUtil.MaxAbs | fpfs/imgutil.py:164-166 | The result is the largest absolute value, and some element attains it. |
| ImgUtil.CountAbove | fpfs/imgutil.py:167 | The count of pixels above the threshold never exceeds the pixel count. |
| ImgUtil.CountAboveHit | fpfs/imgutil.py:167 | One pixel above the threshold makes the count positive. |
| ImgUtil.CountAboveNone | fpfs/imgutil.py:167 | No pixel above the threshold makes the count zero. |
| ImgUtil.NaiveCount | fpfs/imgutil.py:164-167 | `max()` of an empty array is an error. Otherwise the count of pixels above half the peak is at most the pixel count, and it is zero exactly when the image is all zeros. |
| ImgUtil.NaiveCountCases | fpfs/imgutil.py:166-167 | No pixel exceeds half the peak magnitude exactly when every pixel is zero. |
| ImgUtil.SourceIsLaguerre | fpfs/imgutil.py:203-205 | The source's recurrence, with its divisions by `n`, is equivalent to the textbook Laguerre recurrence `n·L_n = (2n−1+m−x)·L_{n−1} − (n−1+m)·L_{n−2}`. |
| ImgUtil.LaguerreIsStandard | fpfs/imgutil.py:200-205 | Every column of `lfunc`, as `Laguerre(n, m, x)` computes it with the source's own 1/n recurrence, satisfies the textbook generalized-Laguerre recurrence with the seeds `1` and `1 − x + m`. This re-expresses the source's recurrence; it is not compared with a closed form of the polynomials. |
| ImgUtil.LaguerreAtOrigin | fpfs/imgutil.py:200-205 | Any column satisfying the recurrence at `x = 0` holds the binomial coefficients `C(k+m, k)`. |
| ImgUtil.Binomial | fpfs/imgutil.py:200-205 | The binomial coefficients built by the product formula are positive. |
| ImgUtil.IndicesInRange | fpfs/imgutil.py:207-209 | For each populated `(nn, mm)`, the source's `c1` and `d1` satisfy `c1 + d1 = nn`, `d1 − c1 = mm` and `0 ≤ c1 ≤ d1 ≤ nn`, so `lfunc[c1, mm]` lies in the table. |
| ImgUtil.ShapeletEntry | fpfs/imgutil.py:206-214 | Modes the source does not populate (`m > n`, or `n − m` odd) are zero, and every `m = 0` mode is real. |
| ImgUtil.RealModes | fpfs/imgutil.py:210-214 | `m = 0` modes are real. The `(0,0)` mode is `norm·gau/sigma`, which is non-negative for a positive scale. |
| ImgUtil.FillLaguerreRow | fpfs/imgutil.py:204-205 | One pass of the inner loop extends the table by row `n`, which obeys the recurrence for every `m`. |
| ImgUtil.LaguerreTable | fpfs/imgutil.py:197-205 | Every row of the filled `lfunc` table obeys the seeds and the recurrence. |
| ImgUtil.FillChiRow | fpfs/imgutil.py:207-214 | Row `nn` of `chi` becomes `ShapeletEntry(nn, m)` for every `m`. The loop over `mm = nn, nn−2, …` writes the populated modes, and the others keep their zero. No other row changes. |
| ImgUtil.ChiTable | fpfs/imgutil.py:206-214 | Every cell of `chi` is `ShapeletEntry(n, m)`, which is zero for modes the source does not populate. |
| ImgUtil.Shapelets2DCell | fpfs/imgutil.py:187-215 | `sigma = 0` raises ZeroDivisionError and `nord = 0` raises IndexError. Otherwise the result is the full `(nord+1)²` table of shapelet entries. |
| ImgUtil.NoiseRadius | fpfs/imgutil.py:229 | `rlim2 = int(max(0.4·ngrid, rlim))`. It is non-negative and at least `rlim`. |
| ImgUtil.NoiseMask | fpfs/imgutil.py:230-233 | The mask is a new `ngrid × ngrid` array, true exactly outside the `rlim2` window. |
| ImgUtil.MaskRowLocal | fpfs/imgutil.py:234 | A row's selection depends only on its cells where the mask is true. |
| ImgUtil.MaskSelectLocal | fpfs/imgutil.py:234-235 | Whole arrays that agree on the masked pixels give the same selection. |
| ImgUtil.Combine | fpfs/imgutil.py:237 | The fitted noise is the per-cell `Σ par[k]·noiModel[k]`. |
| ImgUtil.CombineAtUnit | fpfs/imgutil.py:237 | A unit coefficient vector picks out one template at a cell. |
| ImgUtil.CombineAtZero | fpfs/imgutil.py:237 | Zero coefficients give zero noise. |
| ImgUtil.CombineUnit | fpfs/imgutil.py:237 | A unit coefficient vector reproduces that template. |
| ImgUtil.NoiseFit | fpfs/imgutil.py:229-238 | Fails with IndexError exactly when the `rlim2` window leaves the grid. Otherwise it gives a grid. |
| ImgUtil.NoiseFitIgnoresWindow | fpfs/imgutil.py:233-237 | The fitted noise depends only on the galaxy power outside the window. |
| ImgUtil.EvenGridKeepsRowZero | fpfs/imgutil.py:230-233 | On an even grid, row 0 is always among the fitted pixels. |
| ImgUtil.NoiseWindowFits | fpfs/imgutil.py:229-230 | When the measurement window fits the grid, so does the noise window. |
| ImgUtil.FitNoiPow | fpfs/imgutil.py:229-238 | The method that builds the mask array returns `NoiseFit`. |
| ImgUtil.ArrayToGrid | fpfs/imgutil.py:232-233 | Reading an array back as a grid keeps its shape and every cell. |
| ImgUtil.SliceBound | fpfs/imgutil.py:296 | The clamped bound of a Python slice lies within the sequence, and a bound already inside is unchanged. |
| ImgUtil.PySlice | fpfs/imgutil.py:296 | In-range Python slices are ordinary subsequences. A slice is never longer than the sequence, nor longer than `b − a`. `s[a:b]` is empty when `b ≤ a` and `b` does not wrap round past `a`. |
| ImgUtil.CutImg | fpfs/imgutil.py:293-297 | The stamp has at most as many rows as the image. A positive radius gives at most `2·rcut` rows of at most `2·rcut` cells, and a radius `≤ 0` gives an empty stamp. |
| ImgUtil.CutImgStamp | fpfs/imgutil.py:293-297 | A radius that fits gives a `2·rcut` square stamp centred on `ngrid//2`, cell for cell. |
| ImgUtil.CutImgRow | fpfs/imgutil.py:293-297 | For a radius that fits, row `i` of the stamp is row `ngrid//2 − rcut + i` of the image, cut to columns `ngrid//2 − rcut` up to `ngrid//2 + rcut`. |
| ImgUtil.CutImgTooWide | fpfs/imgutil.py:294-296 | A radius beyond half the image gives fewer than `2·rcut` rows. |
| FpfsBase.Clamp | fpfs/fpfsBase.py:44 | The result lies in `[1, 4]`. It is the identity inside the interval and the nearer bound outside. |
| FpfsBase.ShapeletScale | fpfs/fpfsBase.py:44 | The shapelet scale always lies in `[1, 4]`. |
| FpfsBase.ClampStable | fpfs/fpfsBase.py:44 | The clamp is idempotent and monotone. |
| FpfsBase.RetainedModes | fpfs/fpfsBase.py:47-51 | The `(nnord+1)²` reshape is a bijection. `_indC = [0, 12, 20]` are the flat indices of `(0,0)`, `(2,2)` and `(4,0)`, all populated modes. |
| FpfsBase.ReshapedChi | fpfs/fpfsBase.py:47-49 | The reshaped basis has 25 planes of `ngrid²` cells, and plane `k` is mode `(k//5, k%5)`. |
| FpfsBase.ReshapedMode | fpfs/fpfsBase.py:48-49 | Cell `(i, j)` of flat plane `FlatMode(n, m)` is the shapelet entry of mode `(n, m)`. |
| FpfsBase.PlaneIsMode | fpfs/fpfsBase.py:48-49 | A whole flat plane equals the plane of its mode. |
| FpfsBase.RetainedPlanes | fpfs/fpfsBase.py:48-51 | The three planes `_indC` selects are the `M00`, `M22` and `M40` planes. |
| FpfsBase.DroppedPartsVanish | fpfs/fpfsBase.py:115-122 | The imaginary parts of `M00` and `M40`, which `itransform` discards, sum to zero over the window. |
| FpfsBase.WindowIndices | fpfs/fpfsBase.py:71 | `_indX` holds `2·rlim+1` consecutive indices starting at `ngrid//2 − rlim`. It is empty for negative `rlim`. |
| FpfsBase.WindowShape | fpfs/fpfsBase.py:71-73 | An index is in `_indX` exactly when it lies in the window. The window is symmetric about the centre, and it lies inside the grid when `ngrid//2 + rlim < ngrid`. |
| FpfsBase.WindowInRange | fpfs/fpfsBase.py:71-73 | Every index of a fitting window is a valid grid index. |
| FpfsBase.Qualifies | fpfs/fpfsBase.py:65-68 | A distance that qualifies has both PSF cells nonzero, and each Gaussian-to-PSF ratio is at most `2·thres`. For a zero Gaussian it qualifies exactly when both PSF cells are nonzero. |
| FpfsBase.SearchInGrid | fpfs/fpfsBase.py:64-66 | Every distance the search visits reads pixels inside the grid and gives a window that fits. |
| FpfsBase.TruncationSearch | fpfs/fpfsBase.py:63-70 | Returns the first distance in `range(ngrid//5, ngrid//2−1)` whose averaged Gaussian-to-PSF ratio is at most `1e-3`, or reports that none qualifies. |
| FpfsBase.FirstHitUnique | fpfs/fpfsBase.py:63-70 | The first qualifying distance is unique. |
| FpfsBase.RealPowNonzero | fpfs/fpfsBase.py:99 | A power of a nonzero PSF cell is nonzero. |
| FpfsBase.Deconvolved | fpfs/fpfsBase.py:98-99 | The deconvolved power is an `ngrid²` grid. |
| FpfsBase.NonzeroNested | fpfs/fpfsBase.py:98-99 | A PSF power that is nonzero on a window is nonzero on every smaller window. |
| FpfsBase.DeconvolvedAt | fpfs/fpfsBase.py:98-99 | Inside the window, `out · psfPow^order = data`. Outside it, `out` is zero. |
| FpfsBase.DeconvolvedLocal | fpfs/fpfsBase.py:98-99 | The output depends only on the data inside the window. |
| FpfsBase.ArrayIsDeconvolved | fpfs/fpfsBase.py:98-99 | An array with the per-cell values is the grid `Deconvolved`. |
| FpfsBase.RowSumLocal | fpfs/fpfsBase.py:115 | A row's window sum depends only on the data at the window's columns. |
| FpfsBase.WindowSumLocal | fpfs/fpfsBase.py:115 | A window sum depends only on the data at the window's cells. |
| FpfsBase.RowSumNonneg | fpfs/fpfsBase.py:151 | A row sum of non-negative data against non-negative weights is non-negative. |
| FpfsBase.WindowSumNonneg | fpfs/fpfsBase.py:151 | The same holds for the whole window. |
| FpfsBase.RowSumZeroWeight | fpfs/fpfsBase.py:115 | A zero weight row sums to zero. |
| FpfsBase.WindowSumZeroWeight | fpfs/fpfsBase.py:115 | A zero weight plane sums to zero. |
| FpfsBase.RowSumZeroData | fpfs/fpfsBase.py:115 | A row sum over columns where the data are zero is zero. |
| FpfsBase.WindowSumZeroData | fpfs/fpfsBase.py:115 | A window sum of data that are zero on the window is zero. |
| FpfsBase.ITransform | fpfs/fpfsBase.py:115-123 | Data that are zero on the window give all-zero moments `M00`, `M22c`, `M22s` and `M40`. |
| FpfsBase.ITransformCov | fpfs/fpfsBase.py:139-159 | Data that are zero on the window give all seven covariances zero. |
| FpfsBase.TransformsLocal | fpfs/fpfsBase.py:115-158 | `itransform` and `itransformCov` read the data only inside `_ind2D`. |
| FpfsBase.SquareSumNonneg | fpfs/fpfsBase.py:141-151 | A window sum against a squared shapelet part is non-negative for non-negative data. |
| FpfsBase.VariancesNonneg | fpfs/fpfsBase.py:139-158 | For non-negative data, `N00N00`, `N22cN22c`, `N22sN22s` and `N40N40` are non-negative. |
| FpfsBase.EpCorAlgebra | fpfs/fpfsBase.py:204-205 | `f² + 2f(p − f) = f(2p − f)`. |
| FpfsBase.EpCorOfReduced | fpfs/fpfsBase.py:204-205 | The noise-bias term, computed after subtracting the fitted noise, is `noiFit · (2·galPow − noiFit)` of the original power. |
| FpfsBase.FitAfter | fpfs/fpfsBase.py:201-202 | Without a noise model the `noiFit` slot is kept. With one, it becomes the `fitNoiPow` result for this galaxy. |
| FpfsBase.RecordOf | fpfs/fpfsBase.py:196-210 | The covariances are present exactly when a noise fit is present. |
| FpfsBase.MomentsIgnoreNoise | fpfs/fpfsBase.py:198-208 | The moments do not depend on the noise fit. With no fit there are no covariances. |
| FpfsBase.EpCorLocal | fpfs/fpfsBase.py:204-207 | Galaxy powers that agree on the window give the same deconvolved noise-bias term. |
| FpfsBase.RecordUsesWindowOnly | fpfs/fpfsBase.py:198-207 | With the noise fit held fixed, the record depends only on the galaxy power inside the window. |
| FpfsBase.FitOverwritten | fpfs/fpfsBase.py:201-202 | With a noise model, the new fit forgets the previous slot and reads the galaxy only outside the noise window. |
| FpfsBase.RunFit | fpfs/fpfsBase.py:180-183 | The slot stays a grid shape through a list of measurements. |
| FpfsBase.RunRecords | fpfs/fpfsBase.py:180-184 | The records stack one per galaxy. |
| FpfsBase.RunRecordsInOrder | fpfs/fpfsBase.py:180-184 | Record `k` is measured with the slot as the first `k+1` galaxies left it. |
| FpfsBase.StampsIndependent | fpfs/fpfsBase.py:181-183 | With a noise model, each galaxy's record is independent of the galaxies before it. |
| FpfsBase.FixedSlot | fpfs/fpfsBase.py:181-183 | Without a noise model the slot never changes. Covariances appear exactly when a fit was supplied. |
| FpfsBase.Lead | fpfs/fpfsBase.py:181-182 | Counts the leading images that measure without error. |
| FpfsBase.PowsOf | fpfs/fpfsBase.py:181-182 | The powers of those leading images, in order. |
| FpfsBase.CountNeedsCells | fpfs/fpfsBase.py:42 | A PSF whose naive radius can be computed has at least one pixel. |
| FpfsBase.FpfsTask.constructor | fpfs/fpfsBase.py:37-55 | Stores every field given, including the least-squares solver, and establishes the class invariant. |
| FpfsBase.FpfsTask.Create | fpfs/fpfsBase.py:37-55 | An empty PSF fails with the error of `getRnaive`'s `max()`, which stands in for the FFT failure in `getFouPow` that comes first in the source. It fails with AttributeError `rlim` exactly when no distance qualifies. Otherwise the task has `sigma = clamp(r·beta)`, the first qualifying `rlim`, its `_indX`, the reshaped basis, the given noise model and fit, and the given least-squares solver. |
| FpfsBase.FpfsTask.SetRlim | fpfs/fpfsBase.py:76-85 | Sets `rlim` and recomputes `_indX` for it. Nothing else changes. |
| FpfsBase.FpfsTask.DeconvolvePow | fpfs/fpfsBase.py:87-100 | Returns a fresh array equal to `Deconvolved` cell for cell. |
| FpfsBase.FpfsTask.MeasureStamp | fpfs/fpfsBase.py:187-210 | A non-2D input is an AssertionError and leaves the slot alone. A 2D input updates the slot with `FitAfter` and returns `RecordOf` with the new slot. |
| FpfsBase.FpfsTask.MeasureList | fpfs/fpfsBase.py:177-185 | An empty list is an IndexError. A first element that is not an array is an AssertionError. Otherwise galaxies are measured in order until the first bad one, which raises its error after the slot has been updated by the good ones before it. A clean list gives `RunRecords`. |
| FpfsBase.FpfsTask.Measure | fpfs/fpfsBase.py:161-185 | A single array is one record. A list goes through `MeasureList`. Any other argument returns None without touching the slot. |
| FpfsEstimate.M2E | fpfs/fpfsBase.py:212-281 | `rev` without covariance fields is an AssertionError. Otherwise there is one ellipticity record per moment record, each computed by `EllipOf`. |
| FpfsEstimate.RsAlgebra | fpfs/fpfsBase.py:267-280 | `eSq − eSqS0 = eSq·(1 − s0)` for the unrevised shape. |
| FpfsEstimate.EllipOf | fpfs/fpfsBase.py:229-280 | Without revision: `e1·w = M22c`, `e2·w = M22s` and `s0·w = M00`, with `w = M00 + const`, and `eSquare ≥ 0`. |
| FpfsEstimate.UnrevisedFields | fpfs/fpfsBase.py:229-280 | Without revision: `e1·w = M22c`, `e2·w = M22s`, `s0·w = M00`, `eSquare = e1² + e2² ≥ 0`, and `RS = eSquare·(1 − s0)/√2`. `RE` is `(s0 − s4 + eSquare)/√2` with `s4 = M40/w`, kept with `flipsign` and negated without it. |
| FpfsEstimate.FlipNegatesResponse | fpfs/fpfsBase.py:277 | `flipsign` negates `RE` and changes no other field. |
| FpfsEstimate.ZeroNoiseRevision | fpfs/fpfsBase.py:242-265 | With zero covariances the revision is defined and changes nothing. |
| FpfsEstimate.ComponentSymmetry | fpfs/fpfsBase.py:229-280 | Swapping `M22c` and `M22s`, together with their covariances, swaps `e1` and `e2` and leaves `RE`, `s0`, `eSquare` and `RS` unchanged. |
| FpfsEstimate.FinishSwap | fpfs/fpfsBase.py:267-280 | The final assembly is symmetric in the two ellipticity components. |
| FpfsEstimate.ErrOf | fpfs/fpfsBase.py:304-343 | `s0Err = R·(1 − s0)·(1 − 3s0)` with `R = N00N00/w²` and `s0 = M00/w`. Zero covariances give zero errors. |
| FpfsEstimate.M2Err | fpfs/fpfsBase.py:283-343 | Missing covariance fields are an AssertionError. Otherwise there is one error record per moment record, each computed by `ErrOf`. |
| FpfsEstimate.S0ErrAlgebra | fpfs/fpfsBase.py:321-323 | `R − 4s0R + 3Rs0² = R(1 − 4s0 + 3s0²)`. |
| FpfsEstimate.ErrorSymmetry | fpfs/fpfsBase.py:304-333 | Swapping `M22c` and `M22s`, with their covariances, swaps `e1Err` and `e2Err` and swaps `e1s0Cov` and `e2s0Cov`. `s0Err` is unchanged. |
| FpfsRevision.EllipRevised | fpfs/fpfsBase.py:229-280 | With `rev`, the record is the final assembly of the revised raw shape. |
| FpfsRevision.FinishFields | fpfs/fpfsBase.py:267-280 | The output record keeps `e1`, `e2` and `s0`, has `eSquare = e1sq + e2sq`, and gives back `e1sqS0 + e2sqS0 = eSquare − √2·RS` and `s4 = s0 + eSquare − sign·√2·RE`. |
| FpfsRevision.ReviseFirst | fpfs/fpfsBase.py:246-260 | Each revised `e1`, `e2`, `s0` and `s4`, times `1 + R`, is its raw value plus its noise term: `N00N22c/w²`, `N00N22s/w²`, `R` and `N00N40/w²`. |
| FpfsRevision.ReviseSquares | fpfs/fpfsBase.py:251-256 | `(e1sq + e2sq)·(1 + 3R)` is the raw `e1² + e2²` minus `(N22cN22c + N22sN22s)/w²`, plus `4·e1·N00N22c/w² + 4·e2·N00N22s/w²` with the revised `e1` and `e2`. |
| FpfsRevision.ReviseSelections | fpfs/fpfsBase.py:262-265 | `(e1sqS0 + e2sqS0)·(1 + 6R)` is the raw `e1²s0 + e2²s0`, plus `3·(e1sq + e2sq)·R` with the revised squares, minus `s0·(N22cN22c + N22sN22s)/w²` with the revised `s0`. |
| FpfsRevision.RevisedRecord | fpfs/fpfsBase.py:242-280 | The final assembly of any revised shape satisfies all six revision equations below. |
| FpfsRevision.RevisionChain | fpfs/fpfsBase.py:242-280 | The record `fpfsM2E` returns with `rev` satisfies six equations, with `R = N00N00/w²` and the record's own fields. `e1·(1+R) = e1_raw + N00N22c/w²`, and the same for `e2`. `s0·(1+R) = s0_raw + R`. `eSquare·(1+3R)` is the raw `e1² + e2²` minus `(N22cN22c + N22sN22s)/w²`, plus `4·e1·N00N22c/w² + 4·e2·N00N22s/w²`. `(eSquare − √2·RS)·(1+6R)` is the raw `e1²s0 + e2²s0`, plus `3·eSquare·R`, minus `s0·(N22cN22c + N22sN22s)/w²`. `(s0 + eSquare − sign·√2·RE)·(1+R)` is the raw `s4` plus `N00N40/w²`. |

## Left out

- The FFT (`np.fft.fft2`, `fftshift`, `fftfreq`, `rfft2`) is outside the model. The PSF and galaxy Fourier powers are taken as given grids, and `getFouPow_rft` is not part of this model.
- `exp`, `sqrt` and `π` are not modelled as real functions. They enter as parameters:
  - the Gaussian envelope of the truncation search;
  - `sqrt(count/π)` in `getRnaive`;
  - the per-cell radius, envelope and unit phase of `shapelets2D`;
  - the factorial and `π` normalisation `norm`.
- `np.sqrt(2.)` in `fpfsM2E` is the double constant `1.4142135623730951`, not an exact square root.
- `np.linalg.lstsq` is a parameter function. The model does not prove least-squares optimality.
- `pcaimages`, `try_numba_njit`, the commented-out estimators after `fpfsM2Err`, and the `mcalib` argument of `fpfsM2E` are not part of this model. `mcalib` is never read.
- IEEE floating point is not modelled. Arithmetic is exact over the reals, and inf/nan results are ruled out by preconditions. The one exception is the truncation search: there, a zero PSF cell makes the ratio inf or nan, which never compares `<= 1e-3`, so the cell does not qualify.
- numpy dtypes are not modelled: `float32` and `complex64` are not distinguished from `float64`, and structured arrays become datatypes. A moment table carries all seven covariance fields or none.
- `_indY` and `_ind2D` are not separate fields. They are views of `_indX`, and the model indexes the window by `_indX` in both directions.
- `shapelets2D` is modelled at one grid cell, since its array operations are elementwise over cells. The reshape into 25 planes is modelled over a per-cell basis function.
- The Laguerre identity across columns (`L_n^m = L_n^{m+1} − L_{n−1}^{m+1}`) is not proved. The column recurrence and its value at the origin are.
- FpfsBase.FpfsTask.Create: requires the PSF power to be nonzero on the window of the largest distance the search can return, `ngrid//2 − 2`. Only the cells of the window found are divided by, but that window is not known before the search; cells outside the largest window, on the outermost rows and columns of the grid, may be zero.
- FpfsBase.FpfsTask.Create: an empty PSF (`ngrid = 0`) fails in the source first in `getFouPow`'s FFT, which is outside the model; the model reports the error of `getRnaive`'s `max()` in its place.
- FpfsBase.FpfsTask.SetRlim: requires the new window to fit the grid, `ngrid//2 + rlim < ngrid`. A larger radius is accepted by the source but fails at the next fancy-index read with IndexError. It also requires the PSF power to be nonzero on the new window, where `deconvolvePow` divides by it.
- FpfsBase.FpfsTask.MeasureStamp: a 2D stamp must be `ngrid × ngrid`, and other shapes are not modelled. In the source, a stamp with a side of at most `ngrid//2 + rlim` raises IndexError at the window read. A stamp of any other size is measured on the window around the task's centre `ngrid//2`, which is not the stamp's own centre. With a noise model, the `ngrid × ngrid` mask then does not match the stamp, which raises IndexError. A supplied `noiFit` does not broadcast against it, which raises ValueError.
- FpfsBase.FpfsTask.Create: the noise models must be `ngrid × ngrid` grids, and a supplied `noiFit` must be one; the constructor asks the same. Mismatched shapes fail inside numpy and are not modelled.
- FpfsEstimate.M2E: requires `M00 + const` to be nonzero and, with `rev`, the revision divisors `1+R`, `1+3R` and `1+6R` to be nonzero. numpy would give inf/nan instead.
- FpfsEstimate.M2Err: requires `M00 + const` to be nonzero. The assertion on `fpfs_N00N40` is inside the all-or-nothing presence of covariance fields, although `fpfsM2Err` never reads that field.
- The measurement's stacking of records into one structured array (`rfn.stack_arrays`, `rfn.merge_arrays`) becomes a sequence of record values.
