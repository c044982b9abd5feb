/** The image utilities of the FPFS estimator (fpfs/imgutil.py): argument
    validation of the Gaussian kernel builder, noise-floor subtraction on a
    Fourier power, the naive pixel count behind the PSF radius, the
    generalized-Laguerre table and the shapelet population rule, the mask and
    linear combination of the noise-power fit, and the centred cut-out. The
    FFTs, `exp`, `sqrt` and least squares are not modelled: their results
    come in as values or as function parameters. */
module ImgUtil {
  import opened Common

  // ---------------------------------------------------------------------
  // gauss_kernel: argument validation and dispatch
  // ---------------------------------------------------------------------

  /** A Python argument, as far as `isinstance` tells values apart. Any other
      object (None, a string, a numpy integer scalar, ...) is `PyOther`. */
  datatype PyValue = PyInt(i: int) | PyBool(b: bool) | PyFloat(f: real) | PyOther

  /** `isinstance(v, int)`; `bool` is a subclass of `int`. */
  predicate IsInt(v: PyValue) {
    v.PyInt? || v.PyBool?
  }

  /** `isinstance(v, (float, int))`. */
  predicate IsNumber(v: PyValue) {
    IsInt(v) || v.PyFloat?
  }

  function NumValue(v: PyValue): real
    requires IsNumber(v)
  {
    match v
    case PyInt(i) => i as real
    case PyBool(b) => if b then 1.0 else 0.0
    case PyFloat(f) => f
  }

  function IntValue(v: PyValue): int
    requires IsInt(v)
  {
    match v
    case PyInt(i) => i
    case PyBool(b) => if b then 1 else 0
  }

  /** The private builder gauss_kernel hands its arguments to. */
  datatype KernelCall =
    | FftKernel(ny: int, nx: int, sigma: real, doShift: bool, returnGrid: bool)
    | RfftKernel(ny: int, nx: int, sigma: real, returnGrid: bool)

  /** gauss_kernel up to the point where it calls a builder: the checks run
      in the source's order and the first failing one raises. */
  function GaussKernel(ny: PyValue, nx: PyValue, sigma: PyValue,
                       doShift: bool, returnGrid: bool, useRfft: bool): (r: Result<KernelCall>)
    ensures r.Ok? <==> IsInt(ny) && IsInt(nx) && IsNumber(sigma) && NumValue(sigma) > 0.0
                       && !(useRfft && doShift)
    ensures !IsInt(ny) ==> r == Err(TypeError("ny should be int"))
    ensures IsInt(ny) && !IsInt(nx) ==> r == Err(TypeError("nx should be int"))
    ensures IsInt(ny) && IsInt(nx) && !IsNumber(sigma) ==> r == Err(TypeError("sigma should be float or int"))
    ensures IsInt(ny) && IsInt(nx) && IsNumber(sigma) && NumValue(sigma) <= 0.0 ==>
              r == Err(ValueError("sigma should be positive"))
    ensures r.Err? && r.error.ValueError? && r.error.msg != "sigma should be positive" ==> useRfft && doShift
    ensures r.Ok? ==> (r.value.RfftKernel? <==> useRfft)
    ensures r.Ok? ==> r.value.ny == IntValue(ny) && r.value.nx == IntValue(nx)
                      && r.value.sigma == NumValue(sigma) && r.value.returnGrid == returnGrid
    ensures r.Ok? && r.value.FftKernel? ==> r.value.doShift == doShift
  {
    if !IsInt(ny) then Err(TypeError("ny should be int"))
    else if !IsInt(nx) then Err(TypeError("nx should be int"))
    else if !IsNumber(sigma) then Err(TypeError("sigma should be float or int"))
    else if NumValue(sigma) <= 0.0 then Err(ValueError("sigma should be positive"))
    else if !useRfft then Ok(FftKernel(IntValue(ny), IntValue(nx), NumValue(sigma), doShift, returnGrid))
    else if doShift then Err(ValueError("do not support shifting centroid if use_rfft=True"))
    else Ok(RfftKernel(IntValue(ny), IntValue(nx), NumValue(sigma), returnGrid))
  }

  // ---------------------------------------------------------------------
  // getFouPow: noise-floor subtraction after the FFT
  // ---------------------------------------------------------------------

  /** The `noiPow` argument of getFouPow, by the type test it passes: a Python
      float (numpy float64 included), an ndarray, or anything else (None, an
      int, ...), which is ignored. */
  datatype NoisePower = NoiseFloat(v: real) | NoiseArray(a: Grid) | NoiseOther

  function Constant(n: nat, v: real): (g: Grid)
    ensures IsGrid(g, n)
    ensures forall i, j :: 0 <= i < n && 0 <= j < n ==> g[i][j] == v
  {
    seq(n, _ => seq(n, _ => v))
  }

  /** getFouPow after the FFT: `pow` is the centred power |FFT|^2 of an
      n x n image, which has n * n pixels. */
  function FouPow(pow: Grid, n: nat, noiPow: NoisePower): (out: Grid)
    requires IsGrid(pow, n)
    requires noiPow.NoiseArray? ==> IsGrid(noiPow.a, n)
    ensures IsGrid(out, n)
    ensures noiPow.NoiseFloat? ==>
              forall i, j :: 0 <= i < n && 0 <= j < n ==>
                out[i][j] == pow[i][j] - noiPow.v * ((n * n) as real)
    ensures noiPow.NoiseArray? ==>
              forall i, j :: 0 <= i < n && 0 <= j < n ==> out[i][j] + noiPow.a[i][j] == pow[i][j]
    ensures noiPow.NoiseOther? ==> out == pow
  {
    match noiPow
    case NoiseFloat(v) => Sub(pow, Constant(n, v * ((n * n) as real)), n)
    case NoiseArray(a) => Sub(pow, a, n)
    case NoiseOther => pow
  }

  /** A float floor is the same as the uniform array holding the floor
      scaled by the pixel count. */
  lemma FloatFloorIsUniformArray(pow: Grid, n: nat, v: real)
    requires IsGrid(pow, n)
    ensures FouPow(pow, n, NoiseFloat(v)) == FouPow(pow, n, NoiseArray(Constant(n, v * ((n * n) as real))))
  {
    var a := FouPow(pow, n, NoiseFloat(v));
    var b := FouPow(pow, n, NoiseArray(Constant(n, v * ((n * n) as real))));
    forall i | 0 <= i < n ensures a[i] == b[i] {
      assert forall j | 0 <= j < n :: a[i][j] == b[i][j];
    }
  }

  // ---------------------------------------------------------------------
  // getRnaive: the pixel count behind the naive radius
  // ---------------------------------------------------------------------

  /** The cells of a 2D array in row-major order, the order numpy uses for
      reductions and boolean-mask selection. */
  function Flatten(g: Grid): (s: seq<real>)
  {
    if |g| == 0 then [] else Flatten(g[..|g| - 1]) + g[|g| - 1]
  }

  /** `abs(s).max()` of a non-empty array. */
  function MaxAbs(s: seq<real>): (m: real)
    requires |s| > 0
    ensures forall k :: 0 <= k < |s| ==> Abs(s[k]) <= m
    ensures exists k :: 0 <= k < |s| && Abs(s[k]) == m
  {
    if |s| == 1 then Abs(s[0])
    else
      var t := MaxAbs(s[..|s| - 1]);
      if Abs(s[|s| - 1]) > t then Abs(s[|s| - 1]) else t
  }

  /** `np.sum(abs(s) > thres)`. */
  function CountAbove(s: seq<real>, thres: real): (c: nat)
    ensures c <= |s|
  {
    if |s| == 0 then 0
    else CountAbove(s[..|s| - 1], thres) + (if Abs(s[|s| - 1]) > thres then 1 else 0)
  }

  lemma {:induction false} CountAboveHit(s: seq<real>, thres: real, k: nat)
    requires k < |s| && Abs(s[k]) > thres
    ensures CountAbove(s, thres) >= 1
  {
    if k < |s| - 1 {
      CountAboveHit(s[..|s| - 1], thres, k);
    }
  }

  lemma {:induction false} CountAboveNone(s: seq<real>, thres: real)
    requires forall k :: 0 <= k < |s| ==> Abs(s[k]) <= thres
    ensures CountAbove(s, thres) == 0
  {
    if |s| > 0 {
      CountAboveNone(s[..|s| - 1], thres);
    }
  }

  /** The count inside getRnaive: the cells whose magnitude exceeds half
      the peak magnitude. `max()` of an empty array raises ValueError. */
  function NaiveCount(g: Grid): (r: Result<nat>)
    ensures r.Err? <==> |Flatten(g)| == 0
    ensures r.Ok? ==> r.value <= |Flatten(g)|
    ensures r.Ok? ==> (r.value == 0 <==> forall k :: 0 <= k < |Flatten(g)| ==> Flatten(g)[k] == 0.0)
  {
    var s := Flatten(g);
    if |s| == 0 then Err(ValueError("zero-size array to reduction operation maximum which has no identity"))
    else
      var m := MaxAbs(s);
      var c := CountAbove(s, m * 0.5);
      NaiveCountCases(s, m);
      Ok(c)
  }

  lemma NaiveCountCases(s: seq<real>, m: real)
    requires |s| > 0 && m == MaxAbs(s)
    ensures CountAbove(s, m * 0.5) == 0 <==> forall k :: 0 <= k < |s| ==> s[k] == 0.0
  {
    if forall k :: 0 <= k < |s| ==> s[k] == 0.0 {
      CountAboveNone(s, m * 0.5);
    } else {
      var k :| 0 <= k < |s| && s[k] != 0.0;
      var p :| 0 <= p < |s| && Abs(s[p]) == m;
      assert Abs(s[k]) > 0.0;
      CountAboveHit(s, m * 0.5, p);
    }
  }

  // ---------------------------------------------------------------------
  // shapelets2D: the generalized-Laguerre table and the basis
  // ---------------------------------------------------------------------

  /** `lfunc[n, m]` at a grid cell whose squared radius is `x`: the
      three-term recurrence of shapelets2D. */
  function Laguerre(n: nat, m: nat, x: real): real
  {
    if n == 0 then 1.0
    else if n == 1 then 1.0 - x + (m as real)
    else SourceStep(n, m, x, Laguerre(n - 1, m, x), Laguerre(n - 2, m, x))
  }

  /** The source's step `(2 + (m - 1 - x) / n) * prev - (1 + (m - 1) / n) * prev2`. */
  function SourceStep(n: nat, m: nat, x: real, prev: real, prev2: real): real
    requires n >= 1
  {
    (2.0 + ((m as real) - 1.0 - x) / (n as real)) * prev - (1.0 + ((m as real) - 1.0) / (n as real)) * prev2
  }

  /** `n` consecutive entries of one column `m` of the table. */
  function LaguerreColumn(len: nat, m: nat, x: real): (col: seq<real>)
    ensures |col| == len
  {
    seq(len, k requires 0 <= k => Laguerre(k, m, x))
  }

  /** Row `k` of a column follows from the two before it by the source's
      step, with the 1/k coefficients. */
  ghost predicate SourceRow(col: seq<real>, m: nat, x: real, k: nat)
    requires 2 <= k < |col|
  {
    col[k] == SourceStep(k, m, x, col[k - 1], col[k - 2])
  }

  /** A column obeys the source's recurrence. */
  ghost predicate SourceRecurrence(col: seq<real>, m: nat, x: real) {
    (|col| > 0 ==> col[0] == 1.0)
    && (|col| > 1 ==> col[1] == 1.0 - x + (m as real))
    && forall k: nat :: 2 <= k < |col| ==> SourceRow(col, m, x, k)
  }

  /** Row `k` of a column follows from the two before it by the textbook
      step k L_k = (2k-1+a-x) L_{k-1} - (k-1+a) L_{k-2}. */
  ghost predicate LaguerreRow(col: seq<real>, a: nat, x: real, k: nat)
    requires 2 <= k < |col|
  {
    (k as real) * col[k] == (2.0 * (k as real) - 1.0 + (a as real) - x) * col[k - 1]
                            - ((k as real) - 1.0 + (a as real)) * col[k - 2]
  }

  /** A column obeys the textbook recurrence of the generalized Laguerre
      polynomials L_k^(a)(x): L_0 = 1, L_1 = 1 + a - x and the step. */
  ghost predicate LaguerreRecurrence(col: seq<real>, a: nat, x: real) {
    (|col| > 0 ==> col[0] == 1.0)
    && (|col| > 1 ==> col[1] == 1.0 + (a as real) - x)
    && forall k: nat :: 2 <= k < |col| ==> LaguerreRow(col, a, x, k)
  }

  lemma MulCancel(n: real, a: real, b: real)
    requires n != 0.0 && n * a == n * b
    ensures a == b
  {
  }

  lemma DivMul(a: real, b: real)
    requires b != 0.0
    ensures (a / b) * b == a
  {
  }

  /** One step of the source's recurrence is the textbook step divided
      by n, on plain reals. */
  lemma StepAlgebra(nr: real, mr: real, x: real, A: real, B: real, L: real)
    requires nr != 0.0
    ensures L == (2.0 + (mr - 1.0 - x) / nr) * A - (1.0 + (mr - 1.0) / nr) * B
            <==> nr * L == (2.0 * nr - 1.0 + mr - x) * A - (nr - 1.0 + mr) * B
  {
    var p := (mr - 1.0 - x) / nr;
    var q := (mr - 1.0) / nr;
    DivMul(mr - 1.0 - x, nr);
    DivMul(mr - 1.0, nr);
    assert nr * (2.0 + p) == 2.0 * nr - 1.0 + mr - x;
    assert nr * (1.0 + q) == nr - 1.0 + mr;
    var S := (2.0 + p) * A - (1.0 + q) * B;
    assert nr * S == (2.0 * nr - 1.0 + mr - x) * A - (nr - 1.0 + mr) * B;
    if nr * L == nr * S {
      MulCancel(nr, L, S);
    }
  }

  /** Row `k` of a column obeys the source's step if and only if it obeys
      the textbook step. */
  lemma SourceRowIsLaguerre(col: seq<real>, m: nat, x: real, k: nat)
    requires 2 <= k < |col|
    ensures SourceRow(col, m, x, k) <==> LaguerreRow(col, m, x, k)
  {
    StepAlgebra(k as real, m as real, x, col[k - 1], col[k - 2], col[k]);
  }

  /** The source's recurrence is exactly the generalized Laguerre
      recurrence: a column obeys one if and only if it obeys the other. */
  lemma SourceIsLaguerre(col: seq<real>, m: nat, x: real)
    ensures SourceRecurrence(col, m, x) <==> LaguerreRecurrence(col, m, x)
  {
    forall k: nat | 2 <= k < |col|
      ensures SourceRow(col, m, x, k) <==> LaguerreRow(col, m, x, k)
    {
      SourceRowIsLaguerre(col, m, x, k);
    }
  }

  /** Every column of the table is a column of generalized Laguerre
      polynomials L_k^(m)(x). */
  lemma LaguerreIsStandard(len: nat, m: nat, x: real)
    ensures LaguerreRecurrence(LaguerreColumn(len, m, x), m, x)
  {
    var col := LaguerreColumn(len, m, x);
    forall k: nat | 2 <= k < len
      ensures SourceRow(col, m, x, k)
    {
      ColumnRow(len, m, x, k);
    }
    SourceIsLaguerre(col, m, x);
  }

  /** One row of a column of the table follows the source's step. */
  lemma ColumnRow(len: nat, m: nat, x: real, k: nat)
    requires 2 <= k < len
    ensures SourceRow(LaguerreColumn(len, m, x), m, x, k)
  {
    var col := LaguerreColumn(len, m, x);
    assert col[k] == Laguerre(k, m, x) && col[k - 1] == Laguerre(k - 1, m, x) && col[k - 2] == Laguerre(k - 2, m, x);
  }

  /** C(k + m, k) as the product of (m + i) / i for i = 1 .. k. */
  function Binomial(k: nat, m: nat): (b: real)
    ensures b > 0.0
  {
    if k == 0 then 1.0 else Binomial(k - 1, m) * ((k + m) as real) / (k as real)
  }

  /** The product formula without its division: k C(k+m, k) = (k+m) C(k-1+m, k-1). */
  lemma BinomialMul(k: nat, m: nat)
    requires k >= 1
    ensures (k as real) * Binomial(k, m) == Binomial(k - 1, m) * ((k + m) as real)
  {
    DivMul(Binomial(k - 1, m) * ((k + m) as real), k as real);
  }

  lemma OriginAlgebra(k: nat, m: nat, L: real, B: real, B1: real, B2: real)
    requires k >= 2
    requires (k as real) * L == (2.0 * (k as real) - 1.0 + (m as real) - 0.0) * B1
                                - ((k as real) - 1.0 + (m as real)) * B2
    requires (k as real) * B == B1 * ((k + m) as real)
    requires ((k - 1) as real) * B1 == B2 * ((k - 1 + m) as real)
    ensures L == B
  {
    var kr, mr := k as real, m as real;
    assert (kr - 1.0 + mr) * B2 == (kr - 1.0) * B1;
    assert kr * L == kr * B;
    MulCancel(kr, L, B);
  }

  /** The recurrence step of a column at the origin, over reals. */
  lemma RowAtOrigin(col: seq<real>, m: nat, k: nat)
    requires 2 <= k < |col| && LaguerreRow(col, m, 0.0, k)
    ensures (k as real) * col[k] == (2.0 * (k as real) - 1.0 + (m as real) - 0.0) * col[k - 1]
                                    - ((k as real) - 1.0 + (m as real)) * col[k - 2]
  {
  }

  /** The product formula at row `k` of a column that holds it at `k - 1`. */
  lemma BinomialMulAt(col: seq<real>, m: nat, k: nat)
    requires 1 <= k < |col| && col[k - 1] == Binomial(k - 1, m)
    ensures (k as real) * Binomial(k, m) == col[k - 1] * ((k + m) as real)
  {
    BinomialMul(k, m);
  }

  /** The product formula between two rows of a column that holds both. */
  lemma ColumnMulAt(col: seq<real>, m: nat, j: nat, k: nat)
    requires j >= 1 && k == j - 1 && j < |col| && col[j] == Binomial(j, m) && col[k] == Binomial(k, m)
    ensures (j as real) * col[j] == col[k] * ((j + m) as real)
  {
    BinomialMul(j, m);
  }

  /** One row of a Laguerre column at the origin, from its recurrence step
      and the two rows before. */
  lemma OriginStep(col: seq<real>, m: nat, k: nat)
    requires 2 <= k < |col| && LaguerreRow(col, m, 0.0, k)
    requires col[k - 1] == Binomial(k - 1, m) && col[k - 2] == Binomial(k - 2, m)
    ensures col[k] == Binomial(k, m)
  {
    BinomialMulAt(col, m, k);
    ColumnMulAt(col, m, k - 1, k - 2);
    RowAtOrigin(col, m, k);
    OriginAlgebra(k, m, col[k], Binomial(k, m), col[k - 1], col[k - 2]);
  }

  /** At the origin a Laguerre column holds binomial coefficients:
      L_k^(m)(0) = C(k + m, k). */
  lemma {:induction false} LaguerreAtOrigin(col: seq<real>, m: nat, k: nat)
    requires LaguerreRecurrence(col, m, 0.0) && k < |col|
    ensures col[k] == Binomial(k, m)
  {
    if k == 1 {
      assert Binomial(1, m) == 1.0 * ((1 + m) as real) / 1.0;
    } else if k >= 2 {
      LaguerreAtOrigin(col, m, k - 1);
      LaguerreAtOrigin(col, m, k - 2);
      assert LaguerreRow(col, m, 0.0, k);
      OriginStep(col, m, k);
    }
  }

  /** The values of shapelets2D at one grid point that need sqrt, exp and the
      unit phase: `rfunc`, `gaufunc` and `eulfunc` there. */
  datatype Cell = Cell(r: real, gau: real, eul: Complex)

  /** The (n, m) pairs shapelets2D writes: `m in range(n, -1, -2)`. */
  predicate Populated(n: nat, m: nat) {
    m <= n && (n - m) % 2 == 0
  }

  /** `c1 = (n - m) // 2` and `d1 = (n + m) // 2` of a populated pair add
      up to `n` and differ by `m`; `c1` is the row of the Laguerre table
      used, so it never exceeds `n`. */
  lemma IndicesInRange(n: nat, m: nat)
    requires Populated(n, m)
    ensures (n - m) / 2 + (n + m) / 2 == n && (n + m) / 2 - (n - m) / 2 == m
    ensures 0 <= (n - m) / 2 <= (n + m) / 2 <= n
  {
  }

  /** The real amplitude `(-1)^d1 / sigma * norm(c1, d1) * L * r^m * gau` of
      one chi entry, where `L` is the Laguerre value `lfunc[c1, m]` and
      `norm(c1, d1)` is the normalisation `sqrt(c1! / d1! / pi)`, a given
      value. */
  function Amplitude(c1: nat, d1: nat, m: nat, L: real, c: Cell, sigma: real, norm: (nat, nat) -> real): real
    requires sigma != 0.0
  {
    RealPow(-1.0, d1) / sigma * norm(c1, d1) * L * RealPow(c.r, m) * c.gau
  }

  /** `chi[n, m]` at one grid cell. */
  function ShapeletEntry(n: nat, m: nat, c: Cell, sigma: real, norm: (nat, nat) -> real): (e: Complex)
    requires sigma != 0.0
    ensures !Populated(n, m) ==> e == CZero
    ensures m == 0 ==> e.im == 0.0
  {
    if Populated(n, m) then
      CScale(Amplitude((n - m) / 2, (n + m) / 2, m, Laguerre((n - m) / 2, m, Square(c.r)), c, sigma, norm),
             CPow(c.eul, m))
    else CZero
  }

  /** The m = 0 modes are real, whatever the phase; the (0, 0) mode is
      `norm(0, 0) * gau / sigma`, depends on the cell only through its
      Gaussian (so it is radially symmetric) and is non-negative. */
  lemma RealModes(n: nat, c: Cell, sigma: real, norm: (nat, nat) -> real)
    requires sigma != 0.0
    ensures ShapeletEntry(n, 0, c, sigma, norm).im == 0.0
    ensures ShapeletEntry(0, 0, c, sigma, norm) == Complex(norm(0, 0) * c.gau / sigma, 0.0)
    ensures sigma > 0.0 && norm(0, 0) >= 0.0 && c.gau >= 0.0 ==> ShapeletEntry(0, 0, c, sigma, norm).re >= 0.0
  {
    var a := Amplitude(0, 0, 0, 1.0, c, sigma, norm);
    assert a == 1.0 / sigma * norm(0, 0) * 1.0 * 1.0 * c.gau;
    assert a == norm(0, 0) * c.gau / sigma;
    if sigma > 0.0 && norm(0, 0) >= 0.0 && c.gau >= 0.0 {
      assert norm(0, 0) * c.gau >= 0.0;
    }
  }

  /** Rows 0 .. n - 1 of `lfunc` hold the table. */
  ghost predicate TableUpTo(lfunc: array2<real>, n: nat, x: real)
    reads lfunc
  {
    n <= lfunc.Length0
    && forall k, j :: 0 <= k < n && 0 <= j < lfunc.Length1 ==> lfunc[k, j] == Laguerre(k, j, x)
  }

  /** Row `n >= 2` of `lfunc` from the two rows before it, for every order
      `m`, as the source's inner loop writes it. */
  method FillLaguerreRow(lfunc: array2<real>, n: nat, x: real)
    requires 2 <= n < lfunc.Length0 && TableUpTo(lfunc, n, x)
    modifies lfunc
    ensures TableUpTo(lfunc, n + 1, x)
  {
    var m := 0;
    while m < lfunc.Length1
      invariant 0 <= m <= lfunc.Length1
      invariant TableUpTo(lfunc, n, x)
      invariant forall j :: 0 <= j < m ==> lfunc[n, j] == Laguerre(n, j, x)
    {
      assert lfunc[n - 1, m] == Laguerre(n - 1, m, x) && lfunc[n - 2, m] == Laguerre(n - 2, m, x);
      lfunc[n, m] := SourceStep(n, m, x, lfunc[n - 1, m], lfunc[n - 2, m]);
      m := m + 1;
    }
  }

  /** The `lfunc` table of one cell, for orders 0 .. nord (nord >= 1): row 0
      is set to 1, row 1 to `1 - x + m`, and each later row from the two
      before it, as in the source's loop over n and m. */
  method LaguerreTable(nord: nat, x: real) returns (lfunc: array2<real>)
    requires nord >= 1
    ensures fresh(lfunc)
    ensures lfunc.Length0 == nord + 1 && lfunc.Length1 == nord + 1
    ensures TableUpTo(lfunc, nord + 1, x)
  {
    lfunc := new real[nord + 1, nord + 1]((i, j) => 0.0);
    var m := 0;
    while m <= nord
      invariant 0 <= m <= nord + 1
      invariant forall j :: 0 <= j < m ==> lfunc[0, j] == 1.0
    {
      lfunc[0, m] := 1.0;
      m := m + 1;
    }
    m := 0;
    while m <= nord
      invariant 0 <= m <= nord + 1
      invariant forall j :: 0 <= j <= nord ==> lfunc[0, j] == 1.0
      invariant forall j :: 0 <= j < m ==> lfunc[1, j] == 1.0 - x + (j as real)
    {
      lfunc[1, m] := 1.0 - x + (m as real);
      m := m + 1;
    }
    var n := 2;
    while n <= nord
      invariant 2 <= n <= nord + 1
      invariant TableUpTo(lfunc, n, x)
    {
      FillLaguerreRow(lfunc, n, x);
      n := n + 1;
    }
  }

  /** Row `nn` of `chi`: the orders `mm = nn, nn - 2, ...` down to 0 or 1
      are written from `lfunc`, every other entry is left as it is. */
  method FillChiRow(chi: array2<Complex>, nn: nat, c: Cell, sigma: real, norm: (nat, nat) -> real,
                    lfunc: array2<real>)
    requires sigma != 0.0 && nn < chi.Length0
    requires chi.Length1 == chi.Length0 == lfunc.Length0 == lfunc.Length1
    requires TableUpTo(lfunc, lfunc.Length0, Square(c.r))
    requires forall j :: 0 <= j < chi.Length1 ==> chi[nn, j] == CZero
    modifies chi
    ensures forall k, j :: 0 <= k < chi.Length0 && 0 <= j < chi.Length1 ==>
              chi[k, j] == if k == nn then ShapeletEntry(k, j, c, sigma, norm) else old(chi[k, j])
  {
    var mm: int := nn;
    while mm >= 0
      invariant -2 <= mm <= nn && (nn - mm) % 2 == 0
      invariant forall k, j :: 0 <= k < chi.Length0 && k != nn && 0 <= j < chi.Length1 ==>
                  chi[k, j] == old(chi[k, j])
      invariant forall j :: 0 <= j < chi.Length1 ==>
                  chi[nn, j] == (if mm < j then ShapeletEntry(nn, j, c, sigma, norm) else CZero)
    {
      var c1 := (nn - mm) / 2;
      var d1 := (nn + mm) / 2;
      assert Populated(nn, mm);
      IndicesInRange(nn, mm);
      if mm >= 1 {
        ParityGap(nn, mm, c, sigma, norm);
      }
      var v := CScale(Amplitude(c1, d1, mm, lfunc[c1, mm], c, sigma, norm), CPow(c.eul, mm));
      EntryFromTable(nn, mm, c, sigma, norm, lfunc[c1, mm]);
      chi[nn, mm] := v;
      mm := mm - 2;
    }
  }

  /** The entry the loop writes for a populated order, from the table value. */
  lemma EntryFromTable(nn: nat, mm: nat, c: Cell, sigma: real, norm: (nat, nat) -> real, L: real)
    requires sigma != 0.0 && Populated(nn, mm) && L == Laguerre((nn - mm) / 2, mm, Square(c.r))
    ensures CScale(Amplitude((nn - mm) / 2, (nn + mm) / 2, mm, L, c, sigma, norm), CPow(c.eul, mm))
            == ShapeletEntry(nn, mm, c, sigma, norm)
  {
  }

  /** The order just below a populated one is not populated, and its entry is zero. */
  lemma ParityGap(nn: nat, mm: nat, c: Cell, sigma: real, norm: (nat, nat) -> real)
    requires sigma != 0.0 && Populated(nn, mm) && mm >= 1
    ensures !Populated(nn, mm - 1) && ShapeletEntry(nn, mm - 1, c, sigma, norm) == CZero
  {
    assert nn - (mm - 1) == (nn - mm) + 1;
  }

  /** The `chi` table of one cell from its `lfunc` table, row by row. */
  method ChiTable(nord: nat, c: Cell, sigma: real, norm: (nat, nat) -> real, lfunc: array2<real>)
    returns (chi: array2<Complex>)
    requires sigma != 0.0
    requires lfunc.Length0 == nord + 1 && lfunc.Length1 == nord + 1
    requires TableUpTo(lfunc, nord + 1, Square(c.r))
    ensures fresh(chi)
    ensures chi.Length0 == nord + 1 && chi.Length1 == nord + 1
    ensures forall n, m :: 0 <= n <= nord && 0 <= m <= nord ==> chi[n, m] == ShapeletEntry(n, m, c, sigma, norm)
  {
    chi := new Complex[nord + 1, nord + 1]((i, j) => CZero);
    var nn := 0;
    while nn <= nord
      invariant 0 <= nn <= nord + 1
      invariant forall k, j :: 0 <= k < nn && 0 <= j <= nord ==> chi[k, j] == ShapeletEntry(k, j, c, sigma, norm)
      invariant forall k, j :: nn <= k <= nord && 0 <= j <= nord ==> chi[k, j] == CZero
    {
      FillChiRow(chi, nn, c, sigma, norm, lfunc);
      nn := nn + 1;
    }
  }

  /** shapelets2D at one grid cell: every numpy operation in it acts cell by
      cell, so the (nord+1) x (nord+1) tables of one cell are filled exactly
      as the source fills them. `fftfreq` divides by the scale
      (ZeroDivisionError) and `lfunc[1]` does not exist when `nord == 0`
      (IndexError). */
  method Shapelets2DCell(nord: nat, c: Cell, sigma: real, norm: (nat, nat) -> real)
    returns (r: Result<array2<Complex>>)
    ensures r.Err? <==> sigma == 0.0 || nord == 0
    ensures sigma == 0.0 ==> r == Err(ZeroDivisionError)
    ensures sigma != 0.0 && nord == 0 ==> r == Err(IndexError)
    ensures r.Ok? ==> r.value.Length0 == nord + 1 && r.value.Length1 == nord + 1
    ensures r.Ok? ==> forall n, m :: 0 <= n <= nord && 0 <= m <= nord ==>
                        r.value[n, m] == ShapeletEntry(n, m, c, sigma, norm)
  {
    if sigma == 0.0 {
      return Err(ZeroDivisionError);
    }
    if nord == 0 {
      return Err(IndexError);
    }
    var lfunc := LaguerreTable(nord, Square(c.r));
    var chi := ChiTable(nord, c, sigma, norm, lfunc);
    return Ok(chi);
  }

  // ---------------------------------------------------------------------
  // fitNoiPow: mask and linear combination
  // ---------------------------------------------------------------------

  /** `rlim2 = int(max(ngrid * 0.4, rlim))`, computed on integers. */
  function NoiseRadius(ngrid: nat, rlim: int): (r2: int)
    ensures r2 == if (ngrid as real) * 0.4 >= rlim as real then ((ngrid as real) * 0.4).Floor else rlim
    ensures r2 >= 0 && r2 >= rlim
  {
    var lo := (2 * ngrid) / 5;
    assert lo == ((ngrid as real) * 0.4).Floor by {
      assert (lo as real) <= (ngrid as real) * 0.4 < (lo as real) + 1.0;
    }
    if lo >= rlim then lo else rlim
  }

  /** The cells fitNoiPow keeps: `mask` is False exactly on the square
      window of half-width `rlim2` about `ngrid // 2` on both axes. */
  predicate InMask(ngrid: nat, rlim2: int, i: int, j: int) {
    !(ngrid / 2 - rlim2 <= i <= ngrid / 2 + rlim2 && ngrid / 2 - rlim2 <= j <= ngrid / 2 + rlim2)
  }

  /** The mask of fitNoiPow, built in place: all True, then False on the
      window. */
  method NoiseMask(ngrid: nat, rlim2: nat) returns (mask: array2<bool>)
    requires ngrid / 2 + rlim2 < ngrid
    ensures fresh(mask)
    ensures mask.Length0 == ngrid && mask.Length1 == ngrid
    ensures forall i, j :: 0 <= i < ngrid && 0 <= j < ngrid ==> mask[i, j] == InMask(ngrid, rlim2, i, j)
  {
    mask := new bool[ngrid, ngrid]((i, j) => true);
    var lo := ngrid / 2 - rlim2;
    var w := 2 * rlim2 + 1;
    var a := 0;
    while a < w
      invariant 0 <= a <= w
      invariant forall i, j :: 0 <= i < ngrid && 0 <= j < ngrid ==>
                  mask[i, j] == !(lo <= i < lo + a && lo <= j < lo + w)
    {
      var b := 0;
      while b < w
        invariant 0 <= b <= w
        invariant forall i, j :: 0 <= i < ngrid && 0 <= j < ngrid ==>
                    mask[i, j] == !((lo <= i < lo + a && lo <= j < lo + w) || (i == lo + a && lo <= j < lo + b))
      {
        mask[lo + a, lo + b] := false;
        b := b + 1;
      }
      a := a + 1;
    }
  }

  /** A boolean grid holding a mask's values. */
  function MaskGrid(ngrid: nat, rlim2: int): (keep: seq<seq<bool>>)
    ensures |keep| == ngrid && forall i :: 0 <= i < ngrid ==> |keep[i]| == ngrid
  {
    seq(ngrid, i => seq(ngrid, j => InMask(ngrid, rlim2, i, j)))
  }

  ghost predicate SameShape(g: Grid, keep: seq<seq<bool>>) {
    |keep| == |g| && forall i :: 0 <= i < |g| ==> |keep[i]| == |g[i]|
  }

  /** `row[keep]`. */
  function MaskRow(row: seq<real>, keep: seq<bool>): (s: seq<real>)
    requires |keep| == |row|
    ensures |s| <= |row|
  {
    if |row| == 0 then []
    else MaskRow(row[..|row| - 1], keep[..|keep| - 1]) + (if keep[|keep| - 1] then [row[|row| - 1]] else [])
  }

  /** `g[keep]`: the kept cells in row-major order. */
  function MaskSelect(g: Grid, keep: seq<seq<bool>>): seq<real>
    requires SameShape(g, keep)
  {
    if |g| == 0 then []
    else MaskSelect(g[..|g| - 1], keep[..|keep| - 1]) + MaskRow(g[|g| - 1], keep[|keep| - 1])
  }

  lemma {:induction false} MaskRowLocal(row: seq<real>, row': seq<real>, keep: seq<bool>)
    requires |keep| == |row| == |row'|
    requires forall j :: 0 <= j < |row| && keep[j] ==> row[j] == row'[j]
    ensures MaskRow(row, keep) == MaskRow(row', keep)
  {
    if |row| > 0 {
      MaskRowLocal(row[..|row| - 1], row'[..|row'| - 1], keep[..|keep| - 1]);
    }
  }

  /** Cells the mask drops cannot change the selection. */
  lemma {:induction false} MaskSelectLocal(g: Grid, g': Grid, keep: seq<seq<bool>>)
    requires SameShape(g, keep) && SameShape(g', keep)
    requires forall i, j :: 0 <= i < |g| && 0 <= j < |g[i]| && keep[i][j] ==> g[i][j] == g'[i][j]
    ensures MaskSelect(g, keep) == MaskSelect(g', keep)
  {
    if |g| > 0 {
      MaskSelectLocal(g[..|g| - 1], g'[..|g'| - 1], keep[..|keep| - 1]);
      MaskRowLocal(g[|g| - 1], g'[|g'| - 1], keep[|keep| - 1]);
    }
  }

  ghost predicate IsStack(models: seq<Grid>, n: nat) {
    forall k :: 0 <= k < |models| ==> IsGrid(models[k], n)
  }

  /** `noiModel[:, mask]`: every template restricted to the kept cells. */
  function MaskedTemplates(models: seq<Grid>, n: nat, keep: seq<seq<bool>>): (nl: seq<seq<real>>)
    requires IsStack(models, n) && |keep| == n && forall i :: 0 <= i < n ==> |keep[i]| == n
    ensures |nl| == |models|
  {
    seq(|models|, k requires 0 <= k < |models| => MaskSelect(models[k], keep))
  }

  /** `sum_k par[k] * models[k][i][j]`. */
  function CombineAt(par: seq<real>, models: seq<Grid>, n: nat, i: nat, j: nat): real
    requires |par| == |models| && IsStack(models, n) && i < n && j < n
  {
    if |par| == 0 then 0.0
    else CombineAt(par[..|par| - 1], models[..|models| - 1], n, i, j) + par[|par| - 1] * models[|models| - 1][i][j]
  }

  /** `np.sum(par[:, None, None] * noiModel, axis=0)`: the combination over
      the full grid. */
  function Combine(par: seq<real>, models: seq<Grid>, n: nat): (s: Grid)
    requires |par| == |models| && IsStack(models, n)
    ensures IsGrid(s, n)
    ensures forall i, j :: 0 <= i < n && 0 <= j < n ==> s[i][j] == CombineAt(par, models, n, i, j)
  {
    seq(n, i requires 0 <= i < n => seq(n, j requires 0 <= j < n => CombineAt(par, models, n, i, j)))
  }

  lemma {:induction false} CombineAtUnit(par: seq<real>, models: seq<Grid>, n: nat, i: nat, j: nat, k: nat)
    requires |par| == |models| && IsStack(models, n) && i < n && j < n && k < |par|
    requires forall q :: 0 <= q < |par| ==> par[q] == if q == k then 1.0 else 0.0
    ensures CombineAt(par, models, n, i, j) == models[k][i][j]
  {
    var last := |par| - 1;
    if k < last {
      CombineAtUnit(par[..last], models[..last], n, i, j, k);
    } else {
      CombineAtZero(par[..last], models[..last], n, i, j);
    }
  }

  lemma {:induction false} CombineAtZero(par: seq<real>, models: seq<Grid>, n: nat, i: nat, j: nat)
    requires |par| == |models| && IsStack(models, n) && i < n && j < n
    requires forall q :: 0 <= q < |par| ==> par[q] == 0.0
    ensures CombineAt(par, models, n, i, j) == 0.0
  {
    if |par| > 0 {
      CombineAtZero(par[..|par| - 1], models[..|models| - 1], n, i, j);
    }
  }

  /** The combination covers the whole grid, window included: a unit
      coefficient vector reproduces its template everywhere. */
  lemma CombineUnit(par: seq<real>, models: seq<Grid>, n: nat, k: nat)
    requires |par| == |models| && IsStack(models, n) && k < |par|
    requires forall q :: 0 <= q < |par| ==> par[q] == if q == k then 1.0 else 0.0
    ensures Combine(par, models, n) == models[k]
  {
    var s := Combine(par, models, n);
    forall i, j | 0 <= i < n && 0 <= j < n ensures s[i][j] == models[k][i][j] {
      CombineAtUnit(par, models, n, i, j, k);
    }
    assert forall i | 0 <= i < n :: s[i] == models[k][i];
  }

  /** np.linalg.lstsq(nl.T, vl)[0]: foreign; a solver maps the masked
      templates (one row per template) and the masked power to one
      coefficient per template. */
  type Solver = (seq<seq<real>>, seq<real>) -> seq<real>

  ghost predicate IsSolver(lstsq: Solver) {
    forall a, b :: |lstsq(a, b)| == |a|
  }

  /** fitNoiPow as a value. Fancy indexing with a window that leaves the
      grid raises IndexError. */
  function NoiseFit(ngrid: nat, galPow: Grid, models: seq<Grid>, rlim: int, lstsq: Solver): (r: Result<Grid>)
    requires IsGrid(galPow, ngrid) && IsStack(models, ngrid) && IsSolver(lstsq)
    ensures r.Err? <==> ngrid / 2 + NoiseRadius(ngrid, rlim) >= ngrid
    ensures r.Err? ==> r.error == IndexError
    ensures r.Ok? ==> IsGrid(r.value, ngrid)
  {
    var rlim2 := NoiseRadius(ngrid, rlim);
    if ngrid / 2 + rlim2 >= ngrid then Err(IndexError)
    else
      var keep := MaskGrid(ngrid, rlim2);
      var par := lstsq(MaskedTemplates(models, ngrid, keep), MaskSelect(galPow, keep));
      Ok(Combine(par, models, ngrid))
  }

  /** The power inside the window never reaches the fit: two powers that
      agree outside the window give the same fit. */
  lemma NoiseFitIgnoresWindow(ngrid: nat, g: Grid, g': Grid, models: seq<Grid>, rlim: int, lstsq: Solver)
    requires IsGrid(g, ngrid) && IsGrid(g', ngrid) && IsStack(models, ngrid) && IsSolver(lstsq)
    requires forall i, j :: 0 <= i < ngrid && 0 <= j < ngrid && InMask(ngrid, NoiseRadius(ngrid, rlim), i, j) ==>
               g[i][j] == g'[i][j]
    ensures NoiseFit(ngrid, g, models, rlim, lstsq) == NoiseFit(ngrid, g', models, rlim, lstsq)
  {
    var rlim2 := NoiseRadius(ngrid, rlim);
    MaskSelectLocal(g, g', MaskGrid(ngrid, rlim2));
  }

  /** On an even grid a window that fits leaves row 0 outside it, so the
      fit always has samples. */
  lemma EvenGridKeepsRowZero(ngrid: nat, rlim2: nat, j: int)
    requires ngrid % 2 == 0 && ngrid / 2 + rlim2 < ngrid
    ensures InMask(ngrid, rlim2, 0, j)
  {
  }

  /** With the radius the task keeps (`rlim <= ngrid - 1 - ngrid // 2`) the
      noise window fits the grid, so fitNoiPow never raises. */
  lemma NoiseWindowFits(ngrid: nat, rlim: int)
    requires ngrid >= 1 && rlim <= ngrid - 1 - ngrid / 2
    ensures ngrid / 2 + NoiseRadius(ngrid, rlim) < ngrid
  {
  }

  /** The contents of a 2D array as rows. */
  function ArrayToGrid<T>(a: array2<T>): (keep: seq<seq<T>>)
    reads a
    ensures |keep| == a.Length0 && forall i :: 0 <= i < a.Length0 ==> |keep[i]| == a.Length1
    ensures forall i, j :: 0 <= i < a.Length0 && 0 <= j < a.Length1 ==> keep[i][j] == a[i, j]
  {
    seq(a.Length0, i requires 0 <= i < a.Length0 reads a =>
      seq(a.Length1, j requires 0 <= j < a.Length1 reads a => a[i, j]))
  }

  /** fitNoiPow: build the mask in place, select the kept cells, solve, and
      combine the templates over the full grid. */
  method FitNoiPow(ngrid: nat, galPow: Grid, models: seq<Grid>, rlim: int, lstsq: Solver)
    returns (r: Result<Grid>)
    requires IsGrid(galPow, ngrid) && IsStack(models, ngrid) && IsSolver(lstsq)
    ensures r == NoiseFit(ngrid, galPow, models, rlim, lstsq)
  {
    var rlim2 := NoiseRadius(ngrid, rlim);
    if ngrid / 2 + rlim2 >= ngrid {
      return Err(IndexError);
    }
    var mask := NoiseMask(ngrid, rlim2);
    var keep := ArrayToGrid(mask);
    assert keep == MaskGrid(ngrid, rlim2) by {
      assert forall i | 0 <= i < ngrid :: keep[i] == MaskGrid(ngrid, rlim2)[i];
    }
    var vl := MaskSelect(galPow, keep);
    var nl := MaskedTemplates(models, ngrid, keep);
    var par := lstsq(nl, vl);
    r := Ok(Combine(par, models, ngrid));
  }

  // ---------------------------------------------------------------------
  // cut_img
  // ---------------------------------------------------------------------

  /** A bound of a Python slice with step 1, as CPython normalises it:
      negative bounds count from the end, and bounds are clamped to
      [0, len]. */
  function SliceBound(k: int, len: nat): (b: nat)
    ensures b <= len
    ensures 0 <= k <= len ==> b == k
  {
    if k < 0 then (if k + len < 0 then 0 else k + len)
    else if k > len then len
    else k
  }

  /** `s[a:b]` in Python. */
  function PySlice<T>(s: seq<T>, a: int, b: int): (t: seq<T>)
    ensures 0 <= a <= b <= |s| ==> t == s[a..b]
    ensures |t| <= |s|
    ensures b <= a && (b >= 0 || b + |s| <= a) ==> t == []
    ensures a < b ==> |t| <= b - a
  {
    var lo := SliceBound(a, |s|);
    var hi := SliceBound(b, |s|);
    if lo < hi then s[lo..hi] else []
  }

  /** cut_img: `img[beg:end, beg:end]` with `beg = ngrid // 2 - rcut` and
      `end = beg + 2 * rcut`, where `ngrid` is the row count. */
  function CutImg(img: Grid, rcut: int): (out: Grid)
    ensures |out| <= |img|
    ensures rcut <= 0 ==> out == []
    ensures rcut > 0 ==> |out| <= 2 * rcut && forall i :: 0 <= i < |out| ==> |out[i]| <= 2 * rcut
  {
    var beg := |img| / 2 - rcut;
    var end := beg + 2 * rcut;
    var rows := PySlice(img, beg, end);
    seq(|rows|, i requires 0 <= i < |rows| => PySlice(rows[i], beg, end))
  }

  /** A radius up to half the image (the width allowing) gives the
      2 rcut x 2 rcut stamp centred on `ngrid // 2`. */
  lemma CutImgStamp(img: Grid, cols: nat, rcut: nat)
    requires IsRect(img, |img|, cols)
    requires rcut <= |img| / 2 && |img| / 2 + rcut <= cols
    ensures var out := CutImg(img, rcut);
            IsRect(out, 2 * rcut, 2 * rcut)
            && forall i, j :: 0 <= i < 2 * rcut && 0 <= j < 2 * rcut ==>
                 out[i][j] == img[|img| / 2 - rcut + i][|img| / 2 - rcut + j]
  {
    var out := CutImg(img, rcut);
    forall i | 0 <= i < 2 * rcut
      ensures |out| == 2 * rcut && out[i] == img[|img| / 2 - rcut + i][|img| / 2 - rcut..|img| / 2 + rcut]
    {
      CutImgRow(img, cols, rcut, i);
    }
    assert |out| == 2 * rcut by {
      CutImgRow(img, cols, rcut, 0);
    }
  }

  /** One row of that stamp. */
  lemma CutImgRow(img: Grid, cols: nat, rcut: nat, i: nat)
    requires IsRect(img, |img|, cols)
    requires rcut <= |img| / 2 && |img| / 2 + rcut <= cols
    ensures |CutImg(img, rcut)| == 2 * rcut
    ensures i < 2 * rcut ==> CutImg(img, rcut)[i] == img[|img| / 2 - rcut + i][|img| / 2 - rcut..|img| / 2 + rcut]
  {
    var beg := |img| / 2 - rcut;
    var end := beg + 2 * rcut;
    var rows := PySlice(img, beg, end);
    assert rows == img[beg..end];
    if i < 2 * rcut {
      assert rows[i] == img[beg + i] && |rows[i]| == cols;
    }
  }


  /** A radius beyond half the image never gives the requested width: the
      negative start counts from the end of the rows. */
  lemma CutImgTooWide(img: Grid, rcut: int)
    requires rcut > |img| / 2
    ensures |CutImg(img, rcut)| < 2 * rcut
  {
  }
}
