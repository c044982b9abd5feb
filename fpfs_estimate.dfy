/** The record algebra of fpfs/fpfsBase.py that turns FPFS moments into
    ellipticities, responses and their errors: fpfsM2E and fpfsM2Err. A
    catalogue is a structured array; its noise fields are either all
    present or all absent. */
module FpfsEstimate {
  import opened Common
  import opened FpfsBase

  /** `np.sqrt(2.)` as the double it evaluates to. */
  const Sqrt2: real := 1.4142135623730951

  /** A table of moments; `noise` holds the covariance columns when the
      table has them. */
  datatype Catalog = Catalog(moments: seq<Moments>, noise: Option<seq<Covariance>>)

  ghost predicate WellFormed(cat: Catalog) {
    cat.noise.Some? ==> |cat.noise.value| == |cat.moments|
  }

  /** The output record of fpfsM2E. */
  datatype Ellipticity = Ellipticity(e1: real, e2: real, re: real, s0: real, eSquare: real, rs: real)

  /** The output record of fpfsM2Err. */
  datatype Errors = Errors(e1Err: real, e2Err: real, s0Err: real, e1s0Cov: real, e2s0Cov: real)

  /** The quantities fpfsM2E carries from its first block to its last. */
  datatype Shape = Shape(e1: real, e2: real, e1sq: real, e2sq: real, s0: real, s4: real, e1sqS0: real, e2sqS0: real)

  function Ratio(x: real, w: real): real
    requires w != 0.0
  {
    x / w
  }

  /** `x / weight**2`, as two divisions by the weight. */
  function Scaled(x: real, w: real): real
    requires w != 0.0
  {
    x / w / w
  }

  /** The unrevised quantities: ellipticities and flux ratios over the
      weight `w = M00 + const`, and their squares and products. */
  function RawShape(m: Moments, w: real): (sh: Shape)
    requires w != 0.0
  {
    var e1 := Ratio(m.m22c, w);
    var e2 := Ratio(m.m22s, w);
    var s0 := Ratio(m.m00, w);
    Shape(e1, e2, Square(e1), Square(e2), s0, Ratio(m.m40, w), Square(e1) * s0, Square(e2) * s0)
  }

  /** The divisors the revision uses are nonzero. */
  ghost predicate Revisable(n: Covariance, w: real) {
    w != 0.0
    && 1.0 + Scaled(n.n00n00, w) != 0.0
    && 1.0 + 3.0 * Scaled(n.n00n00, w) != 0.0
    && 1.0 + 6.0 * Scaled(n.n00n00, w) != 0.0
  }

  /** `(x + add) / (1 + ratio)`: the revision of e1, e2, s0 and s4. */
  function Shift(x: real, add: real, ratio: real): real
    requires 1.0 + ratio != 0.0
  {
    (x + add) / (1.0 + ratio)
  }

  /** `(sq - nsq + 4 * e * ne) / (1 + 3 * ratio)`: the revision of a
      squared ellipticity from the revised component `e`. */
  function ShiftSquare(sq: real, nsq: real, e: real, ne: real, ratio: real): real
    requires 1.0 + 3.0 * ratio != 0.0
  {
    (sq - nsq + 4.0 * e * ne) / (1.0 + 3.0 * ratio)
  }

  /** `(sqS0 + 3 * sq * ratio - s0 * nsq) / (1 + 6 * ratio)`: the revision
      of a selection term from the revised square and flux ratio. */
  function ShiftSelection(sqS0: real, sq: real, s0: real, nsq: real, ratio: real): real
    requires 1.0 + 6.0 * ratio != 0.0
  {
    (sqS0 + 3.0 * sq * ratio - s0 * nsq) / (1.0 + 6.0 * ratio)
  }

  /** The second-order noise revision, in the source's order: e1 and e2
      first; e1sq and e2sq from the revised e1 and e2; s0 and s4; then
      e1sqS0 and e2sqS0 from the revised e1sq, e2sq and s0. `ratio` is
      `N00N00 / weight**2`. */
  function Revise(sh: Shape, n: Covariance, w: real): (r: Shape)
    requires Revisable(n, w)
  {
    var ratio := Scaled(n.n00n00, w);
    var e1 := Shift(sh.e1, Scaled(n.n00n22c, w), ratio);
    var e2 := Shift(sh.e2, Scaled(n.n00n22s, w), ratio);
    var e1sq := ShiftSquare(sh.e1sq, Scaled(n.n22cn22c, w), e1, Scaled(n.n00n22c, w), ratio);
    var e2sq := ShiftSquare(sh.e2sq, Scaled(n.n22sn22s, w), e2, Scaled(n.n00n22s, w), ratio);
    var s0 := Shift(sh.s0, Scaled(n.n00n00, w), ratio);
    var s4 := Shift(sh.s4, Scaled(n.n00n40, w), ratio);
    Shape(e1, e2, e1sq, e2sq, s0, s4,
          ShiftSelection(sh.e1sqS0, e1sq, s0, Scaled(n.n22cn22c, w), ratio),
          ShiftSelection(sh.e2sqS0, e2sq, s0, Scaled(n.n22sn22s, w), ratio))
  }

  /** `2 * flipsign - 1`. */
  function Sign(flipsign: bool): real {
    if flipsign then 1.0 else -1.0
  }

  /** The output fields from the (possibly revised) quantities. */
  function Finish(sh: Shape, flipsign: bool): Ellipticity {
    var eSq := sh.e1sq + sh.e2sq;
    var eSqS0 := sh.e1sqS0 + sh.e2sqS0;
    var re := 1.0 / Sqrt2 * (sh.s0 - sh.s4 + sh.e1sq + sh.e2sq);
    Ellipticity(sh.e1, sh.e2, re * Sign(flipsign), sh.s0, eSq, (eSq - eSqS0) / Sqrt2)
  }

  /** One record of fpfsM2E. */
  function EllipOf(m: Moments, noise: Option<Covariance>, const_: real, rev: bool, flipsign: bool): (r: Ellipticity)
    requires m.m00 + const_ != 0.0
    requires rev ==> noise.Some? && Revisable(noise.value, m.m00 + const_)
    ensures !rev ==> r.e1 * (m.m00 + const_) == m.m22c && r.e2 * (m.m00 + const_) == m.m22s
                     && r.s0 * (m.m00 + const_) == m.m00
    ensures !rev ==> r.eSquare >= 0.0
  {
    var w := m.m00 + const_;
    var sh := RawShape(m, w);
    Finish(if rev then Revise(sh, noise.value, w) else sh, flipsign)
  }

  ghost predicate EllipDefined(cat: Catalog, const_: real, rev: bool) {
    WellFormed(cat)
    && (forall k :: 0 <= k < |cat.moments| ==> cat.moments[k].m00 + const_ != 0.0)
    && (rev && cat.noise.Some? ==>
          forall k :: 0 <= k < |cat.moments| ==> Revisable(cat.noise.value[k], cat.moments[k].m00 + const_))
  }

  function NoiseAt(cat: Catalog, k: nat): Option<Covariance>
    requires WellFormed(cat) && k < |cat.moments|
  {
    if cat.noise.Some? then Some(cat.noise.value[k]) else None
  }

  /** fpfsM2E: one ellipticity record per moment record, in order; with
      `rev` the table must carry the noise fields. */
  function M2E(cat: Catalog, const_: real, rev: bool, flipsign: bool): (r: Result<seq<Ellipticity>>)
    requires EllipDefined(cat, const_, rev)
    ensures r.Err? <==> rev && cat.noise.None?
    ensures r.Err? ==> r.error == AssertionError
    ensures r.Ok? ==> |r.value| == |cat.moments|
    ensures r.Ok? ==> forall k :: 0 <= k < |cat.moments| ==>
                        r.value[k] == EllipOf(cat.moments[k], NoiseAt(cat, k), const_, rev, flipsign)
  {
    if rev && cat.noise.None? then Err(AssertionError)
    else Ok(seq(|cat.moments|, k requires 0 <= k < |cat.moments| =>
              EllipOf(cat.moments[k], NoiseAt(cat, k), const_, rev, flipsign)))
  }

  // ---------------------------------------------------------------------
  // Properties of fpfsM2E
  // ---------------------------------------------------------------------

  lemma RsAlgebra(a: real, b: real, s0: real)
    ensures (Square(a) + Square(b)) - (Square(a) * s0 + Square(b) * s0) == (Square(a) + Square(b)) * (1.0 - s0)
  {
  }

  /** Without the revision the ellipticities and flux ratio are the
      moments over the weight, eSquare is the squared ellipticity (never
      negative), RS is `eSquare * (1 - s0) / sqrt 2`, and RE is
      `(s0 - s4 + eSquare) / sqrt 2`, kept with `flipsign` and negated
      without it. */
  lemma UnrevisedFields(m: Moments, const_: real, flipsign: bool)
    requires m.m00 + const_ != 0.0
    ensures var w := m.m00 + const_;
            var r := EllipOf(m, None, const_, false, flipsign);
            r.e1 * w == m.m22c && r.e2 * w == m.m22s && r.s0 * w == m.m00
            && r.eSquare == Square(r.e1) + Square(r.e2) && r.eSquare >= 0.0
            && r.rs == r.eSquare * (1.0 - r.s0) / Sqrt2
            && (flipsign ==> r.re == 1.0 / Sqrt2 * (r.s0 - Ratio(m.m40, w) + r.eSquare))
            && (!flipsign ==> r.re == -(1.0 / Sqrt2 * (r.s0 - Ratio(m.m40, w) + r.eSquare)))
  {
    var w := m.m00 + const_;
    var sh := RawShape(m, w);
    RsAlgebra(sh.e1, sh.e2, sh.s0);
  }

  /** `flipsign` negates RE and nothing else. */
  lemma FlipNegatesResponse(m: Moments, noise: Option<Covariance>, const_: real, rev: bool)
    requires m.m00 + const_ != 0.0
    requires rev ==> noise.Some? && Revisable(noise.value, m.m00 + const_)
    ensures var a := EllipOf(m, noise, const_, rev, true);
            var b := EllipOf(m, noise, const_, rev, false);
            a.re == -b.re && a.e1 == b.e1 && a.e2 == b.e2 && a.s0 == b.s0 && a.eSquare == b.eSquare && a.rs == b.rs
  {
  }

  /** The revision is a correction for noise: with every noise term 0 it
      changes nothing. */
  lemma ZeroNoiseRevision(m: Moments, const_: real, flipsign: bool)
    requires m.m00 + const_ != 0.0
    ensures var z := Covariance(0.0, 0.0, 0.0, 0.0, 0.0, 0.0, 0.0);
            Revisable(z, m.m00 + const_)
            && EllipOf(m, Some(z), const_, true, flipsign) == EllipOf(m, None, const_, false, flipsign)
  {
    var w := m.m00 + const_;
    var z := Covariance(0.0, 0.0, 0.0, 0.0, 0.0, 0.0, 0.0);
    assert Scaled(0.0, w) == 0.0;
    var sh := RawShape(m, w);
    assert Revise(sh, z, w) == sh;
  }

  /** The two ellipticity components are treated alike: exchanging M22c
      with M22s, and their noise terms, exchanges e1 with e2 and keeps
      every other field. */
  lemma ComponentSymmetry(m: Moments, noise: Option<Covariance>, const_: real, rev: bool, flipsign: bool)
    requires m.m00 + const_ != 0.0
    requires rev ==> noise.Some? && Revisable(noise.value, m.m00 + const_)
    ensures var m' := Moments(m.m00, m.m22s, m.m22c, m.m40);
            var noise' := if noise.Some? then Some(SwapNoise(noise.value)) else None;
            var a := EllipOf(m, noise, const_, rev, flipsign);
            var b := EllipOf(m', noise', const_, rev, flipsign);
            b.e1 == a.e2 && b.e2 == a.e1 && b.re == a.re && b.s0 == a.s0 && b.eSquare == a.eSquare && b.rs == a.rs
  {
    var w := m.m00 + const_;
    var m' := Moments(m.m00, m.m22s, m.m22c, m.m40);
    var raw := RawShape(m, w);
    assert RawShape(m', w) == SwapShape(raw);
    var sh := raw;
    if rev {
      var n := noise.value;
      assert Revise(SwapShape(raw), SwapNoise(n), w) == SwapShape(Revise(raw, n, w));
      sh := Revise(raw, n, w);
    }
    FinishSwap(sh, flipsign);
  }

  function SwapShape(sh: Shape): Shape {
    Shape(sh.e2, sh.e1, sh.e2sq, sh.e1sq, sh.s0, sh.s4, sh.e2sqS0, sh.e1sqS0)
  }

  lemma FinishSwap(sh: Shape, flipsign: bool)
    ensures var a := Finish(sh, flipsign);
            var b := Finish(SwapShape(sh), flipsign);
            b.e1 == a.e2 && b.e2 == a.e1 && b.re == a.re && b.s0 == a.s0 && b.eSquare == a.eSquare && b.rs == a.rs
  {
    assert sh.s0 - sh.s4 + sh.e2sq + sh.e1sq == sh.s0 - sh.s4 + sh.e1sq + sh.e2sq;
  }

  /** The covariance record with the two ellipticity components
      exchanged. */
  function SwapNoise(n: Covariance): Covariance {
    Covariance(n.n00n00, n.n22sn22s, n.n22cn22c, n.n40n40, n.n00n22s, n.n00n22c, n.n00n40)
  }

  // ---------------------------------------------------------------------
  // fpfsM2Err
  // ---------------------------------------------------------------------

  lemma S0ErrAlgebra(ratio: real, s0: real)
    ensures ratio - 4.0 * s0 * ratio + 3.0 * ratio * Square(s0) == ratio * (1.0 - 4.0 * s0 + 3.0 * Square(s0))
  {
  }

  /** One record of fpfsM2Err. The flux-ratio error is
      `R * (1 - s0) * (1 - 3 s0)` with `R = N00N00 / w**2`, and
      noise-free moments have no error. */
  function ErrOf(m: Moments, n: Covariance, const_: real): (r: Errors)
    requires m.m00 + const_ != 0.0
    ensures var w := m.m00 + const_;
            r.s0Err == Scaled(n.n00n00, w) * (1.0 - Ratio(m.m00, w)) * (1.0 - 3.0 * Ratio(m.m00, w))
    ensures n == Covariance(0.0, 0.0, 0.0, 0.0, 0.0, 0.0, 0.0) ==> r == Errors(0.0, 0.0, 0.0, 0.0, 0.0)
  {
    var w := m.m00 + const_;
    var e1 := Ratio(m.m22c, w);
    var e2 := Ratio(m.m22s, w);
    var s0 := Ratio(m.m00, w);
    var ratio := Scaled(n.n00n00, w);
    S0ErrAlgebra(ratio, s0);
    assert Scaled(0.0, w) == 0.0;
    Errors(ErrTerm(Scaled(n.n22cn22c, w), e1, Scaled(n.n00n22c, w), ratio),
           ErrTerm(Scaled(n.n22sn22s, w), e2, Scaled(n.n00n22s, w), ratio),
           ErrTerm(Scaled(n.n00n00, w), s0, Scaled(n.n00n00, w), ratio),
           CovTerm(Scaled(n.n00n22c, w), Scaled(n.n00n00, w), e1, s0, ratio),
           CovTerm(Scaled(n.n00n22s, w), Scaled(n.n00n00, w), e2, s0, ratio))
  }

  /** `nsq - 4 * e * ne + 3 * ratio * e**2`: the error of one quantity
      `e` whose noise variance is `nsq` and covariance with the flux noise
      `ne`. */
  function ErrTerm(nsq: real, e: real, ne: real, ratio: real): real {
    nsq - 4.0 * e * ne + 3.0 * ratio * Square(e)
  }

  /** `ne - 2 * s0 * ne - 2 * e * n00 + 3 * ratio * e * s0`: the
      covariance of an ellipticity `e` with the flux ratio `s0`. */
  function CovTerm(ne: real, n00: real, e: real, s0: real, ratio: real): real {
    ne - 2.0 * s0 * ne - 2.0 * e * n00 + 3.0 * ratio * e * s0
  }

  /** fpfsM2Err: the table must carry the noise fields; one error record
      per moment record, in order. */
  function M2Err(cat: Catalog, const_: real): (r: Result<seq<Errors>>)
    requires WellFormed(cat)
    requires forall k :: 0 <= k < |cat.moments| ==> cat.moments[k].m00 + const_ != 0.0
    ensures r.Err? <==> cat.noise.None?
    ensures r.Err? ==> r.error == AssertionError
    ensures r.Ok? ==> |r.value| == |cat.moments|
    ensures r.Ok? ==> forall k :: 0 <= k < |cat.moments| ==>
                        r.value[k] == ErrOf(cat.moments[k], cat.noise.value[k], const_)
  {
    if cat.noise.None? then Err(AssertionError)
    else Ok(seq(|cat.moments|, k requires 0 <= k < |cat.moments| =>
              ErrOf(cat.moments[k], cat.noise.value[k], const_)))
  }

  /** Exchanging the two ellipticity components exchanges their errors
      and covariances and keeps the flux-ratio error. */
  lemma ErrorSymmetry(m: Moments, n: Covariance, const_: real)
    requires m.m00 + const_ != 0.0
    ensures var a := ErrOf(m, n, const_);
            var b := ErrOf(Moments(m.m00, m.m22s, m.m22c, m.m40), SwapNoise(n), const_);
            b == Errors(a.e2Err, a.e1Err, a.s0Err, a.e2s0Cov, a.e1s0Cov)
  {
  }
}
