/** Shared vocabulary of the model: optional values, the Python exceptions the
    core raises, square real grids (the numpy 2D arrays), and complex numbers
    for the shapelet basis. */
module Common {

  datatype Option<+T> = None | Some(value: T)

  /** The exceptions the Python core raises, by class. */
  datatype PyError =
    | TypeError(msg: string)
    | ValueError(msg: string)
    | IndexError
    | AssertionError
    | AttributeError(name: string)
    | ZeroDivisionError

  datatype Result<+T> = Ok(value: T) | Err(error: PyError)

  /** A 2D real array: rows of equal length `cols`. */
  type Grid = seq<seq<real>>

  ghost predicate IsRect(g: Grid, rows: nat, cols: nat) {
    |g| == rows && forall i :: 0 <= i < |g| ==> |g[i]| == cols
  }

  /** A square `n` x `n` array, the only shape the core works on. */
  ghost predicate IsGrid(g: Grid, n: nat) {
    IsRect(g, n, n)
  }

  /** The `n` x `n` array of zeros (`np.zeros((n, n))`). */
  function Zeros(n: nat): (z: Grid)
    ensures IsGrid(z, n)
    ensures forall i, j :: 0 <= i < n && 0 <= j < n ==> z[i][j] == 0.0
  {
    seq(n, _ => seq(n, _ => 0.0))
  }

  /** Elementwise difference of two arrays of one shape (numpy `a - b`). */
  function Sub(a: Grid, b: Grid, n: nat): (d: Grid)
    requires IsGrid(a, n) && IsGrid(b, n)
    ensures IsGrid(d, n)
    ensures forall i, j :: 0 <= i < n && 0 <= j < n ==> d[i][j] == a[i][j] - b[i][j]
  {
    seq(n, i requires 0 <= i < n => seq(n, j requires 0 <= j < n => a[i][j] - b[i][j]))
  }

  function Abs(x: real): (r: real)
    ensures r >= 0.0 && (r == x || r == -x)
  {
    if x < 0.0 then -x else x
  }

  /** `x * x`, kept as one term so that a squared radius can be passed on
      as a value. */
  function Square(x: real): (s: real)
    ensures s >= 0.0
  {
    x * x
  }

  /** `x ** k` for a non-negative integer exponent (Python `pow` with an
      integer-valued exponent; `0 ** 0 == 1`). */
  function RealPow(x: real, k: nat): real
  {
    if k == 0 then 1.0 else x * RealPow(x, k - 1)
  }

  /** A complex number as its real and imaginary parts. */
  datatype Complex = Complex(re: real, im: real)

  const CZero := Complex(0.0, 0.0)
  const COne := Complex(1.0, 0.0)

  function CMul(a: Complex, b: Complex): Complex {
    Complex(a.re * b.re - a.im * b.im, a.re * b.im + a.im * b.re)
  }

  function CScale(s: real, a: Complex): Complex {
    Complex(s * a.re, s * a.im)
  }

  /** `z ** k` for a non-negative integer `k` (numpy complex power). */
  function CPow(z: Complex, k: nat): Complex
  {
    if k == 0 then COne else CMul(z, CPow(z, k - 1))
  }
}
