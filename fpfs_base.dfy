/** The FPFS task of fpfs/fpfsBase.py: the shapelet scale, the truncation
    radius and its square window, deconvolution by the PSF power, the
    projection onto the shapelet modes M00, M22 and M40 and their noise
    covariances, and the stateful measurement of galaxy stamps. Power
    spectra are given grids (the FFT is not modelled); the Gaussian
    envelope, the shapelet cell values, the naive radius and the noise
    least-squares solver are given functions. */
module FpfsBase {
  import opened Common
  import opened ImgUtil

  // ---------------------------------------------------------------------
  // Shapelet scale and the retained modes
  // ---------------------------------------------------------------------

  /** `max(min(x, 4.), 1.)`: the shapelet scale from the PSF radius. */
  function Clamp(x: real): (s: real)
    ensures 1.0 <= s <= 4.0
    ensures 1.0 <= x <= 4.0 ==> s == x
    ensures x >= 4.0 ==> s == 4.0
    ensures x <= 1.0 ==> s == 1.0
  {
    var lo := if x < 4.0 then x else 4.0;
    if lo > 1.0 then lo else 1.0
  }

  /** `self.sigma = max(min(sigmaPsf * beta, 4.), 1.)`. */
  function ShapeletScale(sigmaPsf: real, beta: real): (s: real)
    ensures 1.0 <= s <= 4.0
  {
    Clamp(sigmaPsf * beta)
  }

  /** Clamping twice is clamping once, and clamping keeps the order of
      its inputs. */
  lemma ClampStable(x: real, y: real)
    ensures Clamp(Clamp(x)) == Clamp(x)
    ensures x <= y ==> Clamp(x) <= Clamp(y)
  {
  }

  /** The shapelet order of the task. */
  const NNord: nat := 4

  /** The flat index of mode (n, m) once the (nnord+1) x (nnord+1) table is
      reshaped to (nnord+1)^2 planes. */
  function FlatMode(n: nat, m: nat): nat {
    n * (NNord + 1) + m
  }

  /** `_indC`: the planes used, M00, M22 and M40. */
  const IndC: seq<nat> := [0, 12, 20]

  /** The reshape is a bijection between the modes and the 25 planes, and
      the retained planes are the populated modes (0, 0), (2, 2) and
      (4, 0). */
  lemma RetainedModes(n: nat, m: nat, k: nat)
    ensures n <= NNord && m <= NNord ==>
              FlatMode(n, m) < 25 && FlatMode(n, m) / 5 == n && FlatMode(n, m) % 5 == m
    ensures k < 25 ==> FlatMode(k / 5, k % 5) == k
    ensures IndC == [FlatMode(0, 0), FlatMode(2, 2), FlatMode(4, 0)]
    ensures Populated(0, 0) && Populated(2, 2) && Populated(4, 0)
  {
  }

  /** A complex n x n plane. */
  ghost predicate IsPlane(p: seq<seq<Complex>>, n: nat) {
    |p| == n && forall i :: 0 <= i < n ==> |p[i]| == n
  }

  type Stack = seq<seq<seq<Complex>>>

  /** The reshaped shapelet stack: 25 planes of n x n. */
  ghost predicate IsChi(chi: Stack, n: nat) {
    |chi| == 25 && forall k :: 0 <= k < 25 ==> IsPlane(chi[k], n)
  }

  /** The per-cell shapelet inputs at scale `sigma`: radius, Gaussian and
      phase of cell (i, j) (fftfreq, exp and the angle are not modelled). */
  type Basis = (nat, nat, real) -> Cell

  /** `shapelets2D(ngrid, 4, sigma).reshape((25, ngrid, ngrid))`: plane `k`
      holds mode (k // 5, k % 5) of every cell. */
  function ReshapedChi(n: nat, sigma: real, basis: Basis, norm: (nat, nat) -> real): (chi: Stack)
    requires sigma != 0.0
    ensures IsChi(chi, n)
    ensures forall k, i, j :: 0 <= k < 25 && 0 <= i < n && 0 <= j < n ==>
              chi[k][i][j] == ShapeletEntry(k / 5, k % 5, basis(i, j, sigma), sigma, norm)
  {
    seq(25, k requires 0 <= k < 25 =>
      seq(n, i requires 0 <= i < n =>
        seq(n, j requires 0 <= j < n => ShapeletEntry(k / 5, k % 5, basis(i, j, sigma), sigma, norm))))
  }

  /** Plane `FlatMode(n, m)` of the stack is mode (n, m). */
  lemma ReshapedMode(n: nat, sigma: real, basis: Basis, norm: (nat, nat) -> real, nn: nat, m: nat, i: nat, j: nat)
    requires sigma != 0.0 && nn <= NNord && m <= NNord && i < n && j < n
    ensures ReshapedChi(n, sigma, basis, norm)[FlatMode(nn, m)][i][j] == ShapeletEntry(nn, m, basis(i, j, sigma), sigma, norm)
  {
    var k := nn * 5 + m;
    assert k / 5 == nn && k % 5 == m;
  }

  // ---------------------------------------------------------------------
  // The square window
  // ---------------------------------------------------------------------

  /** A radius whose window `ngrid//2 - rlim .. ngrid//2 + rlim` lies inside
      the grid (a negative radius gives the empty window). */
  predicate Fits(n: nat, rlim: int) {
    n / 2 + rlim < n
  }

  predicate InWindow(n: nat, rlim: int, i: int) {
    n / 2 - rlim <= i <= n / 2 + rlim
  }

  /** `np.arange(ngrid//2 - rlim, ngrid//2 + rlim + 1)`. */
  function WindowIndices(n: nat, rlim: int): (w: seq<int>)
    ensures |w| == if rlim < 0 then 0 else 2 * rlim + 1
    ensures forall k :: 0 <= k < |w| ==> w[k] == n / 2 - rlim + k
  {
    if rlim < 0 then [] else seq(2 * rlim + 1, k => n / 2 - rlim + k)
  }

  /** The window holds exactly the indices within `rlim` of the centre,
      symmetric about it, and inside the grid when the radius fits. */
  lemma WindowShape(n: nat, rlim: int, i: int, k: nat)
    ensures i in WindowIndices(n, rlim) <==> InWindow(n, rlim, i)
    ensures k < |WindowIndices(n, rlim)| ==>
              WindowIndices(n, rlim)[k] + WindowIndices(n, rlim)[|WindowIndices(n, rlim)| - 1 - k] == 2 * (n / 2)
    ensures Fits(n, rlim) && InWindow(n, rlim, i) ==> 0 <= i < n
  {
    var w := WindowIndices(n, rlim);
    if InWindow(n, rlim, i) {
      assert w[i - (n / 2 - rlim)] == i;
    }
  }

  // ---------------------------------------------------------------------
  // The truncation search of __prepareRlim
  // ---------------------------------------------------------------------

  const Thres: real := 0.001

  /** `(|g / p1| + |g / p2|) / 2 <= thres`. A zero PSF cell gives inf or
      nan in the source, and neither compares below the threshold. */
  predicate Qualifies(g: real, p1: real, p2: real): (q: bool)
    ensures q ==> p1 != 0.0 && p2 != 0.0 && Abs(g / p1) <= 2.0 * Thres && Abs(g / p2) <= 2.0 * Thres
    ensures g == 0.0 ==> (q <==> p1 != 0.0 && p2 != 0.0)
  {
    p1 != 0.0 && p2 != 0.0 && (Abs(g / p1) + Abs(g / p2)) / 2.0 <= Thres
  }

  /** The test at distance `dist`, on the two axes through the centre;
      `gauss(dist, sigma)` is `exp(-dist^2 / 2 / sigma^2)`. */
  predicate Hit(psf: Grid, n: nat, sigma: real, gauss: (int, real) -> real, dist: int)
    requires IsGrid(psf, n) && 0 <= dist && n / 2 + dist < n
  {
    Qualifies(gauss(dist, sigma), psf[n / 2 + dist][n / 2], psf[n / 2][n / 2 + dist])
  }

  /** Every distance of `range(ngrid//5, ngrid//2 - 1)` reads the PSF power
      inside the grid, and its window fits. */
  lemma SearchInGrid(n: nat, dist: int)
    requires n / 5 <= dist < n / 2 - 1
    ensures 0 <= n / 2 + dist < n && Fits(n, dist)
  {
  }

  /** `dist` is the first hit of the search range. */
  ghost predicate FirstHit(psf: Grid, n: nat, sigma: real, gauss: (int, real) -> real, dist: int)
    requires IsGrid(psf, n)
  {
    n / 5 <= dist < n / 2 - 1
    && Hit(psf, n, sigma, gauss, dist)
    && forall d :: n / 5 <= d < dist ==> !Hit(psf, n, sigma, gauss, d)
  }

  ghost predicate NoHit(psf: Grid, n: nat, sigma: real, gauss: (int, real) -> real)
    requires IsGrid(psf, n)
  {
    forall d :: n / 5 <= d < n / 2 - 1 ==> !Hit(psf, n, sigma, gauss, d)
  }

  /** The for/break loop of __prepareRlim: the first distance that
      qualifies, or none. */
  method TruncationSearch(psf: Grid, n: nat, sigma: real, gauss: (int, real) -> real) returns (r: Option<int>)
    requires IsGrid(psf, n)
    ensures r.Some? ==> FirstHit(psf, n, sigma, gauss, r.value)
    ensures r.None? ==> NoHit(psf, n, sigma, gauss)
  {
    var dist := n / 5;
    while dist < n / 2 - 1
      invariant n / 5 <= dist
      invariant forall d :: n / 5 <= d < dist && d < n / 2 - 1 ==> !Hit(psf, n, sigma, gauss, d)
    {
      var c := n / 2;
      var g := gauss(dist, sigma);
      if Qualifies(g, psf[c + dist][c], psf[c][c + dist]) {
        return Some(dist);
      }
      dist := dist + 1;
    }
    return None;
  }

  /** The first hit is unique. */
  lemma FirstHitUnique(psf: Grid, n: nat, sigma: real, gauss: (int, real) -> real, d1: int, d2: int)
    requires IsGrid(psf, n)
    requires FirstHit(psf, n, sigma, gauss, d1) && FirstHit(psf, n, sigma, gauss, d2)
    ensures d1 == d2
  {
  }

  // ---------------------------------------------------------------------
  // deconvolvePow
  // ---------------------------------------------------------------------

  /** The PSF power is nonzero on the cells of the `rlim` window, the only
      cells deconvolvePow divides by. */
  ghost predicate NonzeroOn(g: Grid, n: nat, rlim: int)
    requires IsGrid(g, n)
  {
    forall i, j {:trigger g[i][j]} :: 0 <= i < n && 0 <= j < n && InWindow(n, rlim, i) && InWindow(n, rlim, j) ==> g[i][j] != 0.0
  }

  /** A smaller window lies inside a larger one. */
  lemma NonzeroNested(g: Grid, n: nat, rlim: int, outer: int)
    requires IsGrid(g, n) && rlim <= outer && NonzeroOn(g, n, outer)
    ensures NonzeroOn(g, n, rlim)
  {
    forall i, j | 0 <= i < n && 0 <= j < n && InWindow(n, rlim, i) && InWindow(n, rlim, j) ensures g[i][j] != 0.0 {
      assert InWindow(n, outer, i) && InWindow(n, outer, j);
    }
  }

  lemma {:induction false} RealPowNonzero(x: real, k: nat)
    requires x != 0.0
    ensures RealPow(x, k) != 0.0
  {
    if k > 0 {
      RealPowNonzero(x, k - 1);
    }
  }

  /** `d / p ** order` at one cell. */
  function Quotient(d: real, p: real, order: nat): real
    requires p != 0.0
  {
    RealPowNonzero(p, order);
    d / RealPow(p, order)
  }

  /** The deconvolved power: `data / psfPow ** order` on the window cells
      and 0 elsewhere. */
  function Deconvolved(data: Grid, psf: Grid, n: nat, rlim: int, order: nat): (out: Grid)
    requires IsGrid(data, n) && IsGrid(psf, n) && NonzeroOn(psf, n, rlim)
    ensures IsGrid(out, n)
  {
    seq(n, i requires 0 <= i < n => seq(n, j requires 0 <= j < n =>
      if InWindow(n, rlim, i) && InWindow(n, rlim, j) then Quotient(data[i][j], psf[i][j], order) else 0.0))
  }

  /** Cell (i, j) of the deconvolved power: reconvolving a window cell
      (multiplying by the PSF power to the same order) gives the data
      back, and every other cell is 0. */
  lemma DeconvolvedAt(data: Grid, psf: Grid, n: nat, rlim: int, order: nat, i: nat, j: nat)
    requires IsGrid(data, n) && IsGrid(psf, n) && NonzeroOn(psf, n, rlim) && i < n && j < n
    ensures InWindow(n, rlim, i) && InWindow(n, rlim, j) ==>
              Deconvolved(data, psf, n, rlim, order)[i][j] * RealPow(psf[i][j], order) == data[i][j]
    ensures !(InWindow(n, rlim, i) && InWindow(n, rlim, j)) ==> Deconvolved(data, psf, n, rlim, order)[i][j] == 0.0
  {
    if InWindow(n, rlim, i) && InWindow(n, rlim, j) {
      RealPowNonzero(psf[i][j], order);
    }
  }

  /** Powers that agree on the window deconvolve to the same array. */
  lemma DeconvolvedLocal(data: Grid, data': Grid, psf: Grid, n: nat, rlim: int, order: nat)
    requires IsGrid(data, n) && IsGrid(data', n) && IsGrid(psf, n) && NonzeroOn(psf, n, rlim)
    requires forall i, j :: 0 <= i < n && 0 <= j < n && InWindow(n, rlim, i) && InWindow(n, rlim, j) ==>
               data[i][j] == data'[i][j]
    ensures Deconvolved(data, psf, n, rlim, order) == Deconvolved(data', psf, n, rlim, order)
  {
    var a := Deconvolved(data, psf, n, rlim, order);
    var b := Deconvolved(data', psf, n, rlim, order);
    forall i | 0 <= i < n ensures a[i] == b[i] {
      assert forall j | 0 <= j < n :: a[i][j] == b[i][j];
    }
  }

  // ---------------------------------------------------------------------
  // itransform and itransformCov: sums over the window
  // ---------------------------------------------------------------------

  ghost predicate InRange(idx: seq<int>, n: nat) {
    forall k :: 0 <= k < |idx| ==> 0 <= idx[k] < n
  }

  /** `sum_{j in cols} d[i][j] * w[i][j]`. */
  function RowSum(d: Grid, w: Grid, n: nat, i: int, cols: seq<int>): real
    requires IsGrid(d, n) && IsGrid(w, n) && 0 <= i < n && InRange(cols, n)
  {
    if |cols| == 0 then 0.0
    else
      var j := cols[|cols| - 1];
      RowSum(d, w, n, i, cols[..|cols| - 1]) + d[i][j] * w[i][j]
  }

  /** `np.sum(d[rows][:, cols] * w[rows][:, cols])`. */
  function WindowSum(d: Grid, w: Grid, n: nat, rows: seq<int>, cols: seq<int>): real
    requires IsGrid(d, n) && IsGrid(w, n) && InRange(rows, n) && InRange(cols, n)
  {
    if |rows| == 0 then 0.0
    else WindowSum(d, w, n, rows[..|rows| - 1], cols) + RowSum(d, w, n, rows[|rows| - 1], cols)
  }

  lemma {:induction false} RowSumLocal(d: Grid, d': Grid, w: Grid, n: nat, i: int, cols: seq<int>)
    requires IsGrid(d, n) && IsGrid(d', n) && IsGrid(w, n) && 0 <= i < n && InRange(cols, n)
    requires forall b :: 0 <= b < |cols| ==> d[i][cols[b]] == d'[i][cols[b]]
    ensures RowSum(d, w, n, i, cols) == RowSum(d', w, n, i, cols)
  {
    if |cols| > 0 {
      RowSumLocal(d, d', w, n, i, cols[..|cols| - 1]);
    }
  }

  /** Cells outside rows x cols do not enter the sum. */
  lemma {:induction false} WindowSumLocal(d: Grid, d': Grid, w: Grid, n: nat, rows: seq<int>, cols: seq<int>)
    requires IsGrid(d, n) && IsGrid(d', n) && IsGrid(w, n) && InRange(rows, n) && InRange(cols, n)
    requires forall a, b :: 0 <= a < |rows| && 0 <= b < |cols| ==> d[rows[a]][cols[b]] == d'[rows[a]][cols[b]]
    ensures WindowSum(d, w, n, rows, cols) == WindowSum(d', w, n, rows, cols)
  {
    if |rows| > 0 {
      var last := |rows| - 1;
      WindowSumLocal(d, d', w, n, rows[..last], cols);
      assert forall b :: 0 <= b < |cols| ==> d[rows[last]][cols[b]] == d'[rows[last]][cols[b]];
      RowSumLocal(d, d', w, n, rows[last], cols);
    }
  }

  lemma MulNonneg(a: real, b: real)
    requires a >= 0.0 && b >= 0.0
    ensures a * b >= 0.0
  {
  }

  lemma {:induction false} RowSumNonneg(d: Grid, w: Grid, n: nat, i: int, cols: seq<int>)
    requires IsGrid(d, n) && IsGrid(w, n) && 0 <= i < n && InRange(cols, n)
    requires forall b :: 0 <= b < |cols| ==> d[i][cols[b]] >= 0.0 && w[i][cols[b]] >= 0.0
    ensures RowSum(d, w, n, i, cols) >= 0.0
  {
    if |cols| > 0 {
      var j := cols[|cols| - 1];
      RowSumNonneg(d, w, n, i, cols[..|cols| - 1]);
      MulNonneg(d[i][j], w[i][j]);
    }
  }

  /** Non-negative data and weights on rows x cols give a non-negative
      sum. */
  lemma {:induction false} WindowSumNonneg(d: Grid, w: Grid, n: nat, rows: seq<int>, cols: seq<int>)
    requires IsGrid(d, n) && IsGrid(w, n) && InRange(rows, n) && InRange(cols, n)
    requires forall a, b :: 0 <= a < |rows| && 0 <= b < |cols| ==>
               d[rows[a]][cols[b]] >= 0.0 && w[rows[a]][cols[b]] >= 0.0
    ensures WindowSum(d, w, n, rows, cols) >= 0.0
  {
    if |rows| > 0 {
      var last := |rows| - 1;
      WindowSumNonneg(d, w, n, rows[..last], cols);
      assert forall b :: 0 <= b < |cols| ==> d[rows[last]][cols[b]] >= 0.0 && w[rows[last]][cols[b]] >= 0.0;
      RowSumNonneg(d, w, n, rows[last], cols);
    }
  }

  /** The real parts of a complex plane. */
  function RePart(p: seq<seq<Complex>>, n: nat): (g: Grid)
    requires IsPlane(p, n)
    ensures IsGrid(g, n)
  {
    seq(n, i requires 0 <= i < n => seq(n, j requires 0 <= j < n => p[i][j].re))
  }

  /** The imaginary parts of a complex plane. */
  function ImPart(p: seq<seq<Complex>>, n: nat): (g: Grid)
    requires IsPlane(p, n)
    ensures IsGrid(g, n)
  {
    seq(n, i requires 0 <= i < n => seq(n, j requires 0 <= j < n => p[i][j].im))
  }

  /** Cellwise product of two arrays. */
  function Mul(a: Grid, b: Grid, n: nat): (g: Grid)
    requires IsGrid(a, n) && IsGrid(b, n)
    ensures IsGrid(g, n)
  {
    seq(n, i requires 0 <= i < n => seq(n, j requires 0 <= j < n => a[i][j] * b[i][j]))
  }

  /** The four moments of itransform. */
  datatype Moments = Moments(m00: real, m22c: real, m22s: real, m40: real)

  /** The seven covariance terms of itransformCov, in the source's order. */
  datatype Covariance = Covariance(n00n00: real, n22cn22c: real, n22sn22s: real, n40n40: real,
                                   n00n22c: real, n00n22s: real, n00n40: real)

  /** itransform: `M = sum over the window of data * chi[_indC]`, then
      (Re M[0], Re M[1], Im M[1], Re M[2]). The data are real, so the real
      (imaginary) part of a sum is the sum against the real (imaginary)
      part of the plane. */
  function ITransform(chi: Stack, n: nat, idx: seq<int>, data: Grid): (mm: Moments)
    requires IsChi(chi, n) && IsGrid(data, n) && InRange(idx, n)
    ensures ZeroOn(data, n, idx) ==> mm == Moments(0.0, 0.0, 0.0, 0.0)
  {
    var mm :=
      Moments(WindowSum(data, RePart(chi[IndC[0]], n), n, idx, idx),
              WindowSum(data, RePart(chi[IndC[1]], n), n, idx, idx),
              WindowSum(data, ImPart(chi[IndC[1]], n), n, idx, idx),
              WindowSum(data, RePart(chi[IndC[2]], n), n, idx, idx));
    if ZeroOn(data, n, idx) then
      WindowSumZeroData(data, RePart(chi[IndC[0]], n), n, idx, idx);
      WindowSumZeroData(data, RePart(chi[IndC[1]], n), n, idx, idx);
      WindowSumZeroData(data, ImPart(chi[IndC[1]], n), n, idx, idx);
      WindowSumZeroData(data, RePart(chi[IndC[2]], n), n, idx, idx);
      mm
    else mm
  }

  /** The window holds no data. */
  predicate ZeroOn(data: Grid, n: nat, idx: seq<int>)
    requires IsGrid(data, n) && InRange(idx, n)
  {
    forall a, b :: 0 <= a < |idx| && 0 <= b < |idx| ==> data[idx[a]][idx[b]] == 0.0
  }


  /** itransformCov: `2 * sum over the window of data * (chi_a * chi_b)`
      for the pairs (r0 r0, r1 r1, i1 i1, r2 r2, r0 r1, r0 i1, r0 r2),
      where r and i are the real and imaginary parts of the three planes. */
  function ITransformCov(chi: Stack, n: nat, idx: seq<int>, data: Grid): (cov: Covariance)
    requires IsChi(chi, n) && IsGrid(data, n) && InRange(idx, n)
    ensures ZeroOn(data, n, idx) ==> cov == Covariance(0.0, 0.0, 0.0, 0.0, 0.0, 0.0, 0.0)
  {
    var r0 := RePart(chi[IndC[0]], n);
    var r1 := RePart(chi[IndC[1]], n);
    var i1 := ImPart(chi[IndC[1]], n);
    var r2 := RePart(chi[IndC[2]], n);
    var cov :=
      Covariance(2.0 * WindowSum(data, Mul(r0, r0, n), n, idx, idx),
                 2.0 * WindowSum(data, Mul(r1, r1, n), n, idx, idx),
                 2.0 * WindowSum(data, Mul(i1, i1, n), n, idx, idx),
                 2.0 * WindowSum(data, Mul(r2, r2, n), n, idx, idx),
                 2.0 * WindowSum(data, Mul(r0, r1, n), n, idx, idx),
                 2.0 * WindowSum(data, Mul(r0, i1, n), n, idx, idx),
                 2.0 * WindowSum(data, Mul(r0, r2, n), n, idx, idx));
    if ZeroOn(data, n, idx) then
      WindowSumZeroData(data, Mul(r0, r0, n), n, idx, idx);
      WindowSumZeroData(data, Mul(r1, r1, n), n, idx, idx);
      WindowSumZeroData(data, Mul(i1, i1, n), n, idx, idx);
      WindowSumZeroData(data, Mul(r2, r2, n), n, idx, idx);
      WindowSumZeroData(data, Mul(r0, r1, n), n, idx, idx);
      WindowSumZeroData(data, Mul(r0, i1, n), n, idx, idx);
      WindowSumZeroData(data, Mul(r0, r2, n), n, idx, idx);
      cov
    else cov
  }

  /** Data outside the window cannot change the moments or their
      covariances. */
  lemma TransformsLocal(chi: Stack, n: nat, idx: seq<int>, d: Grid, d': Grid)
    requires IsChi(chi, n) && IsGrid(d, n) && IsGrid(d', n) && InRange(idx, n)
    requires forall a, b :: 0 <= a < |idx| && 0 <= b < |idx| ==> d[idx[a]][idx[b]] == d'[idx[a]][idx[b]]
    ensures ITransform(chi, n, idx, d) == ITransform(chi, n, idx, d')
    ensures ITransformCov(chi, n, idx, d) == ITransformCov(chi, n, idx, d')
  {
    var r0 := RePart(chi[IndC[0]], n);
    var r1 := RePart(chi[IndC[1]], n);
    var i1 := ImPart(chi[IndC[1]], n);
    var r2 := RePart(chi[IndC[2]], n);
    WindowSumLocal(d, d', r0, n, idx, idx);
    WindowSumLocal(d, d', r1, n, idx, idx);
    WindowSumLocal(d, d', i1, n, idx, idx);
    WindowSumLocal(d, d', r2, n, idx, idx);
    WindowSumLocal(d, d', Mul(r0, r0, n), n, idx, idx);
    WindowSumLocal(d, d', Mul(r1, r1, n), n, idx, idx);
    WindowSumLocal(d, d', Mul(i1, i1, n), n, idx, idx);
    WindowSumLocal(d, d', Mul(r2, r2, n), n, idx, idx);
    WindowSumLocal(d, d', Mul(r0, r1, n), n, idx, idx);
    WindowSumLocal(d, d', Mul(r0, i1, n), n, idx, idx);
    WindowSumLocal(d, d', Mul(r0, r2, n), n, idx, idx);
  }

  /** A square weight is non-negative, so a window sum of it against data
      that are non-negative on the window is non-negative. */
  lemma SquareSumNonneg(d: Grid, a: Grid, n: nat, idx: seq<int>)
    requires IsGrid(d, n) && IsGrid(a, n) && InRange(idx, n)
    requires forall p, q :: 0 <= p < |idx| && 0 <= q < |idx| ==> d[idx[p]][idx[q]] >= 0.0
    ensures WindowSum(d, Mul(a, a, n), n, idx, idx) >= 0.0
  {
    var w := Mul(a, a, n);
    forall p, q | 0 <= p < |idx| && 0 <= q < |idx| ensures w[idx[p]][idx[q]] >= 0.0 {
      assert w[idx[p]][idx[q]] == Square(a[idx[p]][idx[q]]);
    }
    WindowSumNonneg(d, w, n, idx, idx);
  }

  /** The four variance terms are non-negative when the data are
      non-negative on the window. */
  lemma VariancesNonneg(chi: Stack, n: nat, idx: seq<int>, d: Grid)
    requires IsChi(chi, n) && IsGrid(d, n) && InRange(idx, n)
    requires forall p, q :: 0 <= p < |idx| && 0 <= q < |idx| ==> d[idx[p]][idx[q]] >= 0.0
    ensures var c := ITransformCov(chi, n, idx, d);
            c.n00n00 >= 0.0 && c.n22cn22c >= 0.0 && c.n22sn22s >= 0.0 && c.n40n40 >= 0.0
  {
    SquareSumNonneg(d, RePart(chi[IndC[0]], n), n, idx);
    SquareSumNonneg(d, RePart(chi[IndC[1]], n), n, idx);
    SquareSumNonneg(d, ImPart(chi[IndC[1]], n), n, idx);
    SquareSumNonneg(d, RePart(chi[IndC[2]], n), n, idx);
  }

  /** Mode (nn, m) of shapelets2D over the whole grid. */
  function ModePlane(n: nat, nn: nat, m: nat, sigma: real, basis: Basis, norm: (nat, nat) -> real): (p: seq<seq<Complex>>)
    requires sigma != 0.0
    ensures IsPlane(p, n)
  {
    seq(n, i requires 0 <= i < n => seq(n, j requires 0 <= j < n => ShapeletEntry(nn, m, basis(i, j, sigma), sigma, norm)))
  }

  /** `self.chi[self._indC]` are the planes of modes (0, 0), (2, 2) and
      (4, 0). */
  lemma RetainedPlanes(n: nat, sigma: real, basis: Basis, norm: (nat, nat) -> real)
    requires sigma != 0.0
    ensures ReshapedChi(n, sigma, basis, norm)[IndC[0]] == ModePlane(n, 0, 0, sigma, basis, norm)
    ensures ReshapedChi(n, sigma, basis, norm)[IndC[1]] == ModePlane(n, 2, 2, sigma, basis, norm)
    ensures ReshapedChi(n, sigma, basis, norm)[IndC[2]] == ModePlane(n, 4, 0, sigma, basis, norm)
  {
    PlaneIsMode(n, sigma, basis, norm, 0, 0);
    PlaneIsMode(n, sigma, basis, norm, 2, 2);
    PlaneIsMode(n, sigma, basis, norm, 4, 0);
  }

  lemma PlaneIsMode(n: nat, sigma: real, basis: Basis, norm: (nat, nat) -> real, nn: nat, m: nat)
    requires sigma != 0.0 && nn <= NNord && m <= NNord
    ensures ReshapedChi(n, sigma, basis, norm)[FlatMode(nn, m)] == ModePlane(n, nn, m, sigma, basis, norm)
  {
    var a := ReshapedChi(n, sigma, basis, norm)[FlatMode(nn, m)];
    var b := ModePlane(n, nn, m, sigma, basis, norm);
    forall i | 0 <= i < n ensures a[i] == b[i] {
      forall j | 0 <= j < n ensures a[i][j] == b[i][j] {
        ReshapedMode(n, sigma, basis, norm, nn, m, i, j);
      }
    }
  }

  lemma {:induction false} RowSumZeroWeight(d: Grid, w: Grid, n: nat, i: int, cols: seq<int>)
    requires IsGrid(d, n) && IsGrid(w, n) && 0 <= i < n && InRange(cols, n)
    requires forall j :: 0 <= j < n ==> w[i][j] == 0.0
    ensures RowSum(d, w, n, i, cols) == 0.0
  {
    if |cols| > 0 {
      RowSumZeroWeight(d, w, n, i, cols[..|cols| - 1]);
    }
  }

  /** A row sum over columns where the data row is zero is zero. */
  lemma {:induction false} RowSumZeroData(d: Grid, w: Grid, n: nat, i: int, cols: seq<int>)
    requires IsGrid(d, n) && IsGrid(w, n) && 0 <= i < n && InRange(cols, n)
    requires forall b :: 0 <= b < |cols| ==> d[i][cols[b]] == 0.0
    ensures RowSum(d, w, n, i, cols) == 0.0
  {
    if |cols| > 0 {
      var p := cols[..|cols| - 1];
      assert forall b :: 0 <= b < |p| ==> p[b] == cols[b];
      RowSumZeroData(d, w, n, i, p);
    }
  }

  /** A window sum of data that is zero on the window is zero. */
  lemma {:induction false} WindowSumZeroData(d: Grid, w: Grid, n: nat, rows: seq<int>, cols: seq<int>)
    requires IsGrid(d, n) && IsGrid(w, n) && InRange(rows, n) && InRange(cols, n)
    requires forall a, b :: 0 <= a < |rows| && 0 <= b < |cols| ==> d[rows[a]][cols[b]] == 0.0
    ensures WindowSum(d, w, n, rows, cols) == 0.0
  {
    if |rows| > 0 {
      var p := rows[..|rows| - 1];
      assert forall a :: 0 <= a < |p| ==> p[a] == rows[a];
      WindowSumZeroData(d, w, n, p, cols);
      RowSumZeroData(d, w, n, rows[|rows| - 1], cols);
    }
  }

  lemma {:induction false} WindowSumZeroWeight(d: Grid, w: Grid, n: nat, rows: seq<int>, cols: seq<int>)
    requires IsGrid(d, n) && IsGrid(w, n) && InRange(rows, n) && InRange(cols, n)
    requires forall i, j :: 0 <= i < n && 0 <= j < n ==> w[i][j] == 0.0
    ensures WindowSum(d, w, n, rows, cols) == 0.0
  {
    if |rows| > 0 {
      WindowSumZeroWeight(d, w, n, rows[..|rows| - 1], cols);
      RowSumZeroWeight(d, w, n, rows[|rows| - 1], cols);
    }
  }

  /** itransform keeps only the real parts of M00 and M40: their planes
      are real (m = 0), so the imaginary parts it drops are exactly 0. */
  lemma DroppedPartsVanish(n: nat, sigma: real, basis: Basis, norm: (nat, nat) -> real, data: Grid, idx: seq<int>)
    requires sigma != 0.0 && IsGrid(data, n) && InRange(idx, n)
    ensures WindowSum(data, ImPart(ReshapedChi(n, sigma, basis, norm)[IndC[0]], n), n, idx, idx) == 0.0
    ensures WindowSum(data, ImPart(ReshapedChi(n, sigma, basis, norm)[IndC[2]], n), n, idx, idx) == 0.0
  {
    var chi := ReshapedChi(n, sigma, basis, norm);
    RetainedPlanes(n, sigma, basis, norm);
    var w0 := ImPart(chi[IndC[0]], n);
    var w2 := ImPart(chi[IndC[2]], n);
    forall i, j | 0 <= i < n && 0 <= j < n ensures w0[i][j] == 0.0 && w2[i][j] == 0.0 {
      RealModes(0, basis(i, j, sigma), sigma, norm);
      RealModes(4, basis(i, j, sigma), sigma, norm);
    }
    WindowSumZeroWeight(data, w0, n, idx, idx);
    WindowSumZeroWeight(data, w2, n, idx, idx);
  }

  // ---------------------------------------------------------------------
  // __measure as a value
  // ---------------------------------------------------------------------

  /** One measurement: the moments, with the covariance fields merged in
      when a noise power is known. */
  datatype MomentRecord = MomentRecord(m: Moments, cov: Option<Covariance>)

  /** What a measurement reads from the task: grid size, PSF power,
      reshaped shapelets, radius, noise templates and the least-squares
      solver. */
  datatype Context = Context(ngrid: nat, psfPow: Grid, chi: Stack, rlim: int,
                             noiModel: Option<seq<Grid>>, lstsq: Solver)

  ghost predicate Ready(c: Context) {
    c.ngrid >= 1 && IsGrid(c.psfPow, c.ngrid) && NonzeroOn(c.psfPow, c.ngrid, c.rlim) && IsChi(c.chi, c.ngrid)
    && Fits(c.ngrid, c.rlim) && (c.noiModel.Some? ==> IsStack(c.noiModel.value, c.ngrid)) && IsSolver(c.lstsq)
  }

  ghost predicate FitShape(fit: Option<Grid>, n: nat) {
    fit.Some? ==> IsGrid(fit.value, n)
  }

  lemma WindowInRange(n: nat, rlim: int)
    requires Fits(n, rlim)
    ensures InRange(WindowIndices(n, rlim), n)
  {
    var w := WindowIndices(n, rlim);
    forall k | 0 <= k < |w| ensures 0 <= w[k] < n {
      WindowShape(n, rlim, w[k], k);
    }
  }

  /** `epcor = noiFit * noiFit + 2 * noiFit * galPow`, with `galPow`
      already reduced by the noise. */
  function EpCor(f: Grid, g: Grid, n: nat): (ep: Grid)
    requires IsGrid(f, n) && IsGrid(g, n)
    ensures IsGrid(ep, n)
  {
    seq(n, i requires 0 <= i < n => seq(n, j requires 0 <= j < n => Square(f[i][j]) + 2.0 * f[i][j] * g[i][j]))
  }

  lemma EpCorAlgebra(f: real, p: real)
    ensures Square(f) + 2.0 * f * (p - f) == f * (2.0 * p - f)
  {
  }

  /** Since the power is reduced first, the correction is
      `f * (2 * galPow - f)` in the unreduced power. */
  lemma EpCorOfReduced(f: Grid, pow: Grid, n: nat, i: nat, j: nat)
    requires IsGrid(f, n) && IsGrid(pow, n) && i < n && j < n
    ensures EpCor(f, Sub(pow, f, n), n)[i][j] == f[i][j] * (2.0 * pow[i][j] - f[i][j])
  {
    EpCorAlgebra(f[i][j], pow[i][j]);
  }

  /** The noise slot after `__measure`: refitted from the raw power when a
      noise model is set, kept otherwise. */
  function FitAfter(c: Context, pow: Grid, fit0: Option<Grid>): (fit: Option<Grid>)
    requires Ready(c) && IsGrid(pow, c.ngrid) && FitShape(fit0, c.ngrid)
    ensures FitShape(fit, c.ngrid)
    ensures c.noiModel.None? ==> fit == fit0
    ensures c.noiModel.Some? ==> fit.Some? && NoiseFit(c.ngrid, pow, c.noiModel.value, c.rlim, c.lstsq) == Ok(fit.value)
  {
    if c.noiModel.Some? then
      NoiseWindowFits(c.ngrid, c.rlim);
      Some(NoiseFit(c.ngrid, pow, c.noiModel.value, c.rlim, c.lstsq).value)
    else fit0
  }

  /** The record `__measure` returns for the power `pow`, once the noise
      slot holds `fit`. */
  function RecordOf(c: Context, pow: Grid, fit: Option<Grid>): (r: MomentRecord)
    requires Ready(c) && IsGrid(pow, c.ngrid) && FitShape(fit, c.ngrid)
    ensures r.cov.Some? <==> fit.Some?
  {
    WindowInRange(c.ngrid, c.rlim);
    var idx := WindowIndices(c.ngrid, c.rlim);
    var mm := ITransform(c.chi, c.ngrid, idx, Deconvolved(pow, c.psfPow, c.ngrid, c.rlim, 1));
    if fit.None? then MomentRecord(mm, None)
    else
      var ep := EpCor(fit.value, Sub(pow, fit.value, c.ngrid), c.ngrid);
      MomentRecord(mm, Some(ITransformCov(c.chi, c.ngrid, idx, Deconvolved(ep, c.psfPow, c.ngrid, c.rlim, 2))))
  }

  /** The moments come from the power before the noise is subtracted: the
      noise slot changes the covariance fields only. */
  lemma MomentsIgnoreNoise(c: Context, pow: Grid, fit: Option<Grid>)
    requires Ready(c) && IsGrid(pow, c.ngrid) && FitShape(fit, c.ngrid)
    ensures RecordOf(c, pow, fit).m == RecordOf(c, pow, None).m
    ensures RecordOf(c, pow, None).cov == None
  {
  }

  /** Only the window cells of the power reach the record. */
  lemma RecordUsesWindowOnly(c: Context, pow: Grid, pow': Grid, fit: Option<Grid>)
    requires Ready(c) && IsGrid(pow, c.ngrid) && IsGrid(pow', c.ngrid) && FitShape(fit, c.ngrid)
    requires forall i, j :: 0 <= i < c.ngrid && 0 <= j < c.ngrid && InWindow(c.ngrid, c.rlim, i) && InWindow(c.ngrid, c.rlim, j) ==>
               pow[i][j] == pow'[i][j]
    ensures RecordOf(c, pow, fit) == RecordOf(c, pow', fit)
  {
    DeconvolvedLocal(pow, pow', c.psfPow, c.ngrid, c.rlim, 1);
    if fit.Some? {
      EpCorLocal(fit.value, pow, pow', c.psfPow, c.ngrid, c.rlim);
    }
  }

  /** The noise-bias term of powers that agree on the window deconvolves
      to the same array. */
  lemma EpCorLocal(f: Grid, pow: Grid, pow': Grid, psf: Grid, n: nat, rlim: int)
    requires IsGrid(f, n) && IsGrid(pow, n) && IsGrid(pow', n) && IsGrid(psf, n) && NonzeroOn(psf, n, rlim)
    requires forall i, j :: 0 <= i < n && 0 <= j < n && InWindow(n, rlim, i) && InWindow(n, rlim, j) ==>
               pow[i][j] == pow'[i][j]
    ensures Deconvolved(EpCor(f, Sub(pow, f, n), n), psf, n, rlim, 2) == Deconvolved(EpCor(f, Sub(pow', f, n), n), psf, n, rlim, 2)
  {
    var g := Sub(pow, f, n);
    var g' := Sub(pow', f, n);
    var ep := EpCor(f, g, n);
    var ep' := EpCor(f, g', n);
    forall i, j | 0 <= i < n && 0 <= j < n && InWindow(n, rlim, i) && InWindow(n, rlim, j)
      ensures ep[i][j] == ep'[i][j]
    {
      assert g[i][j] == g'[i][j] by {
        assert pow[i][j] == pow'[i][j];
      }
      assert ep[i][j] == Square(f[i][j]) + 2.0 * f[i][j] * g[i][j];
      assert ep'[i][j] == Square(f[i][j]) + 2.0 * f[i][j] * g'[i][j];
    }
    DeconvolvedLocal(ep, ep', psf, n, rlim, 2);
  }

  /** With a noise model the slot is overwritten on every call: what it
      held before does not matter, and cells of the window do not reach
      the fit. */
  lemma FitOverwritten(c: Context, pow: Grid, pow': Grid, f1: Option<Grid>, f2: Option<Grid>)
    requires Ready(c) && c.noiModel.Some? && IsGrid(pow, c.ngrid) && IsGrid(pow', c.ngrid)
    requires FitShape(f1, c.ngrid) && FitShape(f2, c.ngrid)
    requires forall i, j :: 0 <= i < c.ngrid && 0 <= j < c.ngrid && InMask(c.ngrid, NoiseRadius(c.ngrid, c.rlim), i, j) ==>
               pow[i][j] == pow'[i][j]
    ensures FitAfter(c, pow, f1) == FitAfter(c, pow', f2)
  {
    NoiseFitIgnoresWindow(c.ngrid, pow, pow', c.noiModel.value, c.rlim, c.lstsq);
  }

  // ---------------------------------------------------------------------
  // measure over a list of stamps, as values
  // ---------------------------------------------------------------------

  ghost predicate AllGrids(pows: seq<Grid>, n: nat) {
    forall k :: 0 <= k < |pows| ==> IsGrid(pows[k], n)
  }

  /** The noise slot after measuring `pows` in order. */
  function RunFit(c: Context, pows: seq<Grid>, fit0: Option<Grid>): (fit: Option<Grid>)
    requires Ready(c) && AllGrids(pows, c.ngrid) && FitShape(fit0, c.ngrid)
    ensures FitShape(fit, c.ngrid)
  {
    if |pows| == 0 then fit0
    else FitAfter(c, pows[|pows| - 1], RunFit(c, pows[..|pows| - 1], fit0))
  }

  /** The records of measuring `pows` in order. */
  function RunRecords(c: Context, pows: seq<Grid>, fit0: Option<Grid>): (rs: seq<MomentRecord>)
    requires Ready(c) && AllGrids(pows, c.ngrid) && FitShape(fit0, c.ngrid)
    ensures |rs| == |pows|
  {
    if |pows| == 0 then []
    else RunRecords(c, pows[..|pows| - 1], fit0) + [RecordOf(c, pows[|pows| - 1], RunFit(c, pows, fit0))]
  }

  /** Record `k` is the record of stamp `k`, measured with the slot as the
      first `k + 1` stamps leave it. */
  lemma {:induction false} RunRecordsInOrder(c: Context, pows: seq<Grid>, fit0: Option<Grid>, k: nat)
    requires Ready(c) && AllGrids(pows, c.ngrid) && FitShape(fit0, c.ngrid) && k < |pows|
    ensures RunRecords(c, pows, fit0)[k] == RecordOf(c, pows[k], RunFit(c, pows[..k + 1], fit0))
  {
    var last := |pows| - 1;
    if k == last {
      assert pows[..k + 1] == pows;
    } else {
      var pre := pows[..last];
      RunRecordsInOrder(c, pre, fit0, k);
      assert pre[..k + 1] == pows[..k + 1];
    }
  }

  /** With a noise model every stamp gets its own fit: its record is the
      one it would get measured alone, whatever came before. */
  lemma StampsIndependent(c: Context, pows: seq<Grid>, fit0: Option<Grid>, k: nat)
    requires Ready(c) && c.noiModel.Some? && AllGrids(pows, c.ngrid) && FitShape(fit0, c.ngrid) && k < |pows|
    ensures RunRecords(c, pows, fit0)[k] == RecordOf(c, pows[k], FitAfter(c, pows[k], None))
  {
    RunRecordsInOrder(c, pows, fit0, k);
    var pre := pows[..k + 1];
    assert pre[|pre| - 1] == pows[k];
    FitOverwritten(c, pows[k], pows[k], RunFit(c, pre[..|pre| - 1], fit0), None);
  }

  /** Without a noise model the slot never changes, so the covariance
      fields are present in every record exactly when a noise power was
      given. */
  lemma {:induction false} FixedSlot(c: Context, pows: seq<Grid>, fit0: Option<Grid>)
    requires Ready(c) && c.noiModel.None? && AllGrids(pows, c.ngrid) && FitShape(fit0, c.ngrid)
    ensures RunFit(c, pows, fit0) == fit0
    ensures forall k :: 0 <= k < |pows| ==> (RunRecords(c, pows, fit0)[k].cov.Some? <==> fit0.Some?)
  {
    if |pows| > 0 {
      FixedSlot(c, pows[..|pows| - 1], fit0);
    }
  }

  /** An array argument of `measure`: its power when it is 2D. */
  datatype Stamp = Plane(pow: Grid) | NotPlane

  /** An element of a list argument. */
  datatype Item = ArrayItem(stamp: Stamp) | OtherItem

  datatype GalData = ArrayData(stamp: Stamp) | ListData(items: seq<Item>) | OtherData

  /** What `measure` returns: one record, the stacked records of a list, or
      None for any other argument. */
  datatype Measured = Single(rec: MomentRecord) | Stacked(recs: seq<MomentRecord>) | NoResult

  predicate IsPlaneItem(it: Item) {
    it.ArrayItem? && it.stamp.Plane?
  }

  /** The number of leading 2D-array items. */
  function Lead(items: seq<Item>): (k: nat)
    ensures k <= |items|
    ensures forall j :: 0 <= j < k ==> IsPlaneItem(items[j])
    ensures k < |items| ==> !IsPlaneItem(items[k])
  {
    if |items| == 0 || !IsPlaneItem(items[0]) then 0 else 1 + Lead(items[1..])
  }

  /** The powers of the first `k` items. */
  function PowsOf(items: seq<Item>, k: nat): (pows: seq<Grid>)
    requires k <= |items| && forall j :: 0 <= j < k ==> IsPlaneItem(items[j])
    ensures |pows| == k && forall j :: 0 <= j < k ==> IsPlaneItem(items[j]) && pows[j] == items[j].stamp.pow
  {
    seq(k, j requires 0 <= j < k => assert IsPlaneItem(items[j]); items[j].stamp.pow)
  }

  /** The exception an item that is not a 2D array raises in `__measure`:
      the dimension assertion, or the missing `shape` attribute. */
  function ItemError(it: Item): PyError {
    if it.ArrayItem? then AssertionError else AttributeError("shape")
  }

  ghost predicate StampFits(st: Stamp, n: nat) {
    st.Plane? ==> IsGrid(st.pow, n)
  }

  ghost predicate GalFits(gal: GalData, n: nat) {
    (gal.ArrayData? ==> StampFits(gal.stamp, n))
    && (gal.ListData? ==> forall k :: 0 <= k < |gal.items| && gal.items[k].ArrayItem? ==> StampFits(gal.items[k].stamp, n))
  }

  /** An empty PSF has no naive radius. */
  lemma CountNeedsCells(psf: Grid, n: nat)
    requires IsGrid(psf, n) && NaiveCount(psf).Ok?
    ensures n >= 1
  {
  }

  // ---------------------------------------------------------------------
  // The task object
  // ---------------------------------------------------------------------

  /** fpfsTask. The PSF power, scale, shapelets and noise templates are
      fixed at construction; the radius with its window and the noise slot
      are reassigned by setRlim and __measure. `_indY` and `_ind2D` are
      views of `_indX` and are not kept apart. */
  class FpfsTask {
    const ngrid: nat
    const psfPow: Grid
    const sigma: real
    const chi: Stack
    const noiModel: Option<seq<Grid>>
    const lstsq: Solver
    var rlim: int
    var indX: seq<int>
    var noiFit: Option<Grid>

    function Ctx(): Context
      reads this`rlim
    {
      Context(ngrid, psfPow, chi, rlim, noiModel, lstsq)
    }

    ghost predicate Valid()
      reads this
    {
      Ready(Ctx()) && 1.0 <= sigma <= 4.0 && indX == WindowIndices(ngrid, rlim) && FitShape(noiFit, ngrid)
    }

    constructor (ngrid: nat, psfPow: Grid, sigma: real, chi: Stack, rlim: int,
                 noiModel: Option<seq<Grid>>, noiFit: Option<Grid>, lstsq: Solver)
      requires Ready(Context(ngrid, psfPow, chi, rlim, noiModel, lstsq)) && 1.0 <= sigma <= 4.0
      requires FitShape(noiFit, ngrid)
      ensures Valid()
      ensures this.ngrid == ngrid && this.psfPow == psfPow && this.sigma == sigma && this.chi == chi
      ensures this.rlim == rlim && this.noiModel == noiModel && this.noiFit == noiFit && this.lstsq == lstsq
    {
      this.ngrid := ngrid;
      this.psfPow := psfPow;
      this.sigma := sigma;
      this.chi := chi;
      this.noiModel := noiModel;
      this.lstsq := lstsq;
      this.rlim := rlim;
      this.indX := WindowIndices(ngrid, rlim);
      this.noiFit := noiFit;
    }

    /** `__init__`. `psfPow` is the PSF's power (getFouPow after the FFT),
        `naiveRadius(k)` is getRnaive's `sqrt(k / pi)`, `gauss` the
        envelope of the search and `basis`, `norm` the per-cell inputs of
        shapelets2D. An empty PSF (`ngrid = 0`) fails in the source first in
        getFouPow's FFT, which is not modelled; the error of getRnaive's
        `max()` stands in for it. The PSF power need be nonzero only on
        the window of the largest distance the search can return. When no
        distance qualifies `rlim` is never assigned and reading it raises
        AttributeError. */
    static method Create(psfPow: Grid, ngrid: nat, beta: real, naiveRadius: nat -> real,
                         gauss: (int, real) -> real, basis: Basis, norm: (nat, nat) -> real,
                         noiModel: Option<seq<Grid>>, noiFit: Option<Grid>, lstsq: Solver)
      returns (r: Result<FpfsTask>)
      requires IsGrid(psfPow, ngrid) && NonzeroOn(psfPow, ngrid, ngrid / 2 - 2)
      requires (noiModel.Some? ==> IsStack(noiModel.value, ngrid)) && FitShape(noiFit, ngrid) && IsSolver(lstsq)
      ensures NaiveCount(psfPow).Err? ==> r == Err(NaiveCount(psfPow).error)
      ensures NaiveCount(psfPow).Ok? ==>
                var s := ShapeletScale(naiveRadius(NaiveCount(psfPow).value), beta);
                (r.Err? <==> NoHit(psfPow, ngrid, s, gauss))
                && (r.Err? ==> r.error == AttributeError("rlim"))
                && (r.Ok? ==> fresh(r.value) && r.value.Valid()
                              && r.value.ngrid == ngrid && r.value.psfPow == psfPow && r.value.sigma == s
                              && FirstHit(psfPow, ngrid, s, gauss, r.value.rlim)
                              && r.value.chi == ReshapedChi(ngrid, s, basis, norm)
                              && r.value.noiModel == noiModel && r.value.noiFit == noiFit
                              && r.value.lstsq == lstsq)
    {
      var count := NaiveCount(psfPow);
      if count.Err? {
        return Err(count.error);
      }
      var s := ShapeletScale(naiveRadius(count.value), beta);
      var found := TruncationSearch(psfPow, ngrid, s, gauss);
      if found.None? {
        return Err(AttributeError("rlim"));
      }
      SearchInGrid(ngrid, found.value);
      NonzeroNested(psfPow, ngrid, found.value, ngrid / 2 - 2);
      assert !NoHit(psfPow, ngrid, s, gauss) by {
        assert Hit(psfPow, ngrid, s, gauss, found.value);
      }
      CountNeedsCells(psfPow, ngrid);
      var chi := ReshapedChi(ngrid, s, basis, norm);
      var task := new FpfsTask(ngrid, psfPow, s, chi, found.value, noiModel, noiFit, lstsq);
      return Ok(task);
    }

    /** setRlim: the radius and its window, and nothing else. */
    method SetRlim(r: int)
      requires Valid() && Fits(ngrid, r) && NonzeroOn(psfPow, ngrid, r)
      modifies this`rlim, this`indX
      ensures Valid() && rlim == r && indX == WindowIndices(ngrid, r)
    {
      rlim := r;
      indX := WindowIndices(ngrid, rlim);
    }

    /** deconvolvePow: a zero array of the input's shape, written on the
        window with `data / psfPow ** order`. The input is a value and is
        not changed. */
    method DeconvolvePow(data: Grid, order: nat) returns (out: array2<real>)
      requires Valid() && IsGrid(data, ngrid)
      ensures fresh(out) && out.Length0 == ngrid && out.Length1 == ngrid
      ensures forall i, j :: 0 <= i < ngrid && 0 <= j < ngrid ==>
                out[i, j] == if InWindow(ngrid, rlim, i) && InWindow(ngrid, rlim, j)
                             then Quotient(data[i][j], psfPow[i][j], order) else 0.0
    {
      out := new real[ngrid, ngrid]((i, j) => 0.0);
      WindowInRange(ngrid, rlim);
      var w := indX;
      var lo := ngrid / 2 - rlim;
      var a := 0;
      while a < |w|
        invariant 0 <= a <= |w|
        invariant forall i, j :: 0 <= i < ngrid && 0 <= j < ngrid ==>
                    out[i, j] == if lo <= i < lo + a && lo <= j < lo + |w|
                                 then Quotient(data[i][j], psfPow[i][j], order) else 0.0
      {
        var b := 0;
        while b < |w|
          invariant 0 <= b <= |w|
          invariant forall i, j :: 0 <= i < ngrid && 0 <= j < ngrid ==>
                      out[i, j] == if (lo <= i < lo + a && lo <= j < lo + |w|) || (i == lo + a && lo <= j < lo + b)
                                   then Quotient(data[i][j], psfPow[i][j], order) else 0.0
        {
          out[w[a], w[b]] := Quotient(data[w[a]][w[b]], psfPow[w[a]][w[b]], order);
          b := b + 1;
        }
        a := a + 1;
      }
    }
  
    /** `__measure` on one stamp: the moments of the deconvolved raw power;
        then the noise slot is refitted when a noise model is set; then,
        when the slot holds a noise power, the power is reduced by it and
        the covariance fields come from the correction `epcor`
        deconvolved to the second order. Any array that is not 2D fails
        the dimension assertion first. */
    method MeasureStamp(st: Stamp) returns (r: Result<MomentRecord>)
      requires Valid() && StampFits(st, ngrid)
      modifies this`noiFit
      ensures Valid()
      ensures st.NotPlane? ==> r == Err(AssertionError) && noiFit == old(noiFit)
      ensures st.Plane? ==> noiFit == FitAfter(Ctx(), st.pow, old(noiFit))
                            && r == Ok(RecordOf(Ctx(), st.pow, noiFit))
    {
      if st.NotPlane? {
        return Err(AssertionError);
      }
      WindowInRange(ngrid, rlim);
      var galPow := st.pow;
      var decPow := DeconvolvePow(galPow, 1);
      ArrayIsDeconvolved(decPow, galPow, psfPow, ngrid, rlim, 1);
      var mm := ITransform(chi, ngrid, indX, ArrayToGrid(decPow));
      if noiModel.Some? {
        NoiseWindowFits(ngrid, rlim);
        var fit := FitNoiPow(ngrid, galPow, noiModel.value, rlim, lstsq);
        noiFit := Some(fit.value);
      }
      if noiFit.Some? {
        var f := noiFit.value;
        galPow := Sub(galPow, f, ngrid);
        var epcor := EpCor(f, galPow, ngrid);
        var decEP := DeconvolvePow(epcor, 2);
        ArrayIsDeconvolved(decEP, epcor, psfPow, ngrid, rlim, 2);
        var nn := ITransformCov(chi, ngrid, indX, ArrayToGrid(decEP));
        return Ok(MomentRecord(mm, Some(nn)));
      }
      return Ok(MomentRecord(mm, None));
    }

    /** The list branch of `measure`: the list must start with an array
        (an empty list fails on `galData[0]`), and its stamps are measured
        in order, the first failing one ending the call with its
        exception. */
    method MeasureList(items: seq<Item>) returns (r: Result<seq<MomentRecord>>)
      requires Valid() && GalFits(ListData(items), ngrid)
      modifies this`noiFit
      ensures Valid()
      ensures |items| == 0 ==> r == Err(IndexError) && noiFit == old(noiFit)
      ensures |items| > 0 && items[0].OtherItem? ==> r == Err(AssertionError) && noiFit == old(noiFit)
      ensures |items| > 0 && items[0].ArrayItem? ==>
                var k := Lead(items);
                AllGrids(PowsOf(items, k), ngrid)
                && noiFit == RunFit(Ctx(), PowsOf(items, k), old(noiFit))
                && r == if k == |items| then Ok(RunRecords(Ctx(), PowsOf(items, k), old(noiFit)))
                        else Err(ItemError(items[k]))
    {
      if |items| == 0 {
        return Err(IndexError);
      }
      if items[0].OtherItem? {
        return Err(AssertionError);
      }
      ghost var fit0 := noiFit;
      var results: seq<MomentRecord> := [];
      var k := 0;
      while k < |items|
        invariant 0 <= k <= Lead(items)
        invariant Valid() && AllGrids(PowsOf(items, k), ngrid)
        invariant noiFit == RunFit(Ctx(), PowsOf(items, k), fit0)
        invariant results == RunRecords(Ctx(), PowsOf(items, k), fit0)
      {
        var it := items[k];
        if it.OtherItem? {
          return Err(AttributeError("shape"));
        }
        var rec := MeasureStamp(it.stamp);
        if rec.Err? {
          return Err(rec.error);
        }
        var pows := PowsOf(items, k + 1);
        assert pows[..k] == PowsOf(items, k);
        results := results + [rec.value];
        k := k + 1;
      }
      return Ok(results);
    }

    /** `measure`: an array is one stamp, a list is stacked record by
        record, and anything else gives None. */
    method Measure(gal: GalData) returns (r: Result<Measured>)
      requires Valid() && GalFits(gal, ngrid)
      modifies this`noiFit
      ensures Valid()
      ensures gal.OtherData? ==> r == Ok(NoResult) && noiFit == old(noiFit)
      ensures gal.ArrayData? && gal.stamp.NotPlane? ==> r == Err(AssertionError) && noiFit == old(noiFit)
      ensures gal.ArrayData? && gal.stamp.Plane? ==>
                noiFit == FitAfter(Ctx(), gal.stamp.pow, old(noiFit))
                && r == Ok(Single(RecordOf(Ctx(), gal.stamp.pow, noiFit)))
      ensures gal.ListData? && |gal.items| == 0 ==> r == Err(IndexError) && noiFit == old(noiFit)
      ensures gal.ListData? && |gal.items| > 0 && gal.items[0].OtherItem? ==>
                r == Err(AssertionError) && noiFit == old(noiFit)
      ensures gal.ListData? && |gal.items| > 0 && gal.items[0].ArrayItem? ==>
                var k := Lead(gal.items);
                AllGrids(PowsOf(gal.items, k), ngrid)
                && noiFit == RunFit(Ctx(), PowsOf(gal.items, k), old(noiFit))
                && r == if k == |gal.items| then Ok(Stacked(RunRecords(Ctx(), PowsOf(gal.items, k), old(noiFit))))
                        else Err(ItemError(gal.items[k]))
    {
      match gal
      case OtherData =>
        return Ok(NoResult);
      case ArrayData(st) =>
        var rec := MeasureStamp(st);
        if rec.Err? {
          return Err(rec.error);
        }
        return Ok(Single(rec.value));
      case ListData(items) =>
        var recs := MeasureList(items);
        if recs.Err? {
          return Err(recs.error);
        }
        return Ok(Stacked(recs.value));
    }
  }

  /** The array deconvolvePow writes holds the deconvolved power. */
  lemma ArrayIsDeconvolved(out: array2<real>, data: Grid, psf: Grid, n: nat, rlim: int, order: nat)
    requires IsGrid(data, n) && IsGrid(psf, n) && NonzeroOn(psf, n, rlim)
    requires out.Length0 == n && out.Length1 == n
    requires forall i, j :: 0 <= i < n && 0 <= j < n ==>
               out[i, j] == if InWindow(n, rlim, i) && InWindow(n, rlim, j) then Quotient(data[i][j], psf[i][j], order) else 0.0
    ensures ArrayToGrid(out) == Deconvolved(data, psf, n, rlim, order)
  {
    var a := ArrayToGrid(out);
    var b := Deconvolved(data, psf, n, rlim, order);
    forall i | 0 <= i < n ensures a[i] == b[i] {
      assert forall j | 0 <= j < n :: a[i][j] == b[i][j];
    }
  }
}
