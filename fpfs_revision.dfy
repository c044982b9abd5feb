/** The second-order noise revision of fpfsM2E (fpfs/fpfsBase.py) as
    equations: every revised field solves its source's bias equation,
    in terms of the revised fields computed before it. */
module FpfsRevision {
  import opened Common
  import opened FpfsBase
  import opened FpfsEstimate

  /** A revised record is the final assembly of the revised shape. */
  lemma EllipRevised(m: Moments, n: Covariance, const_: real, flipsign: bool)
    requires Revisable(n, m.m00 + const_)
    ensures var w := m.m00 + const_;
            EllipOf(m, Some(n), const_, true, flipsign) == Finish(Revise(RawShape(m, w), n, w), flipsign)
  {
  }

  /** What the final assembly keeps of a shape: the components and s0
      as they are, eSquare as the sum of the squares, the summed
      selection terms behind RS and the s4 behind RE. */
  lemma FinishFields(sh: Shape, flipsign: bool)
    ensures var f := Finish(sh, flipsign);
            f.e1 == sh.e1 && f.e2 == sh.e2 && f.s0 == sh.s0 && f.eSquare == sh.e1sq + sh.e2sq
            && sh.e1sqS0 + sh.e2sqS0 == f.eSquare - Sqrt2 * f.rs
            && sh.s4 == f.s0 + f.eSquare - Sign(flipsign) * Sqrt2 * f.re
  {
    var x := sh.s0 - sh.s4 + sh.e1sq + sh.e2sq;
    SignedResponseBack(x, flipsign);
    ResponseBack(sh.e1sq + sh.e2sq, sh.e1sqS0 + sh.e2sqS0);
  }

  /** The revised e1, e2, s0 and s4 solve `x * (1 + ratio) = x_raw + N / weight**2`. */
  lemma ReviseFirst(sh: Shape, n: Covariance, w: real)
    requires Revisable(n, w)
    ensures var rv := Revise(sh, n, w);
            var ratio := Scaled(n.n00n00, w);
            rv.e1 * (1.0 + ratio) == sh.e1 + Scaled(n.n00n22c, w)
            && rv.e2 * (1.0 + ratio) == sh.e2 + Scaled(n.n00n22s, w)
            && rv.s0 * (1.0 + ratio) == sh.s0 + ratio
            && rv.s4 * (1.0 + ratio) == sh.s4 + Scaled(n.n00n40, w)
  {
    var ratio := Scaled(n.n00n00, w);
    ShiftBack(sh.e1, Scaled(n.n00n22c, w), ratio);
    ShiftBack(sh.e2, Scaled(n.n00n22s, w), ratio);
    ShiftBack(sh.s0, ratio, ratio);
    ShiftBack(sh.s4, Scaled(n.n00n40, w), ratio);
  }

  /** The revised squares are built from the revised e1 and e2. */
  lemma ReviseSquares(sh: Shape, n: Covariance, w: real)
    requires Revisable(n, w)
    ensures var rv := Revise(sh, n, w);
            var ratio := Scaled(n.n00n00, w);
            (rv.e1sq + rv.e2sq) * (1.0 + 3.0 * ratio) ==
              sh.e1sq + sh.e2sq - Scaled(n.n22cn22c, w) - Scaled(n.n22sn22s, w)
              + 4.0 * rv.e1 * Scaled(n.n00n22c, w) + 4.0 * rv.e2 * Scaled(n.n00n22s, w)
  {
    var rv := Revise(sh, n, w);
    SquareSum(sh.e1sq, sh.e2sq, Scaled(n.n22cn22c, w), Scaled(n.n22sn22s, w),
              rv.e1, rv.e2, Scaled(n.n00n22c, w), Scaled(n.n00n22s, w), Scaled(n.n00n00, w));
  }

  /** The revised selection terms are built from the revised squares and
      the revised s0. */
  lemma ReviseSelections(sh: Shape, n: Covariance, w: real)
    requires Revisable(n, w)
    ensures var rv := Revise(sh, n, w);
            var ratio := Scaled(n.n00n00, w);
            (rv.e1sqS0 + rv.e2sqS0) * (1.0 + 6.0 * ratio) ==
              sh.e1sqS0 + sh.e2sqS0 + 3.0 * (rv.e1sq + rv.e2sq) * ratio
              - rv.s0 * (Scaled(n.n22cn22c, w) + Scaled(n.n22sn22s, w))
  {
    var rv := Revise(sh, n, w);
    SelectionPair(sh.e1sqS0, sh.e2sqS0, rv.e1sq, rv.e2sq, rv.s0,
                  Scaled(n.n22cn22c, w), Scaled(n.n22sn22s, w), Scaled(n.n00n00, w));
  }

  /** `e - sqrt 2 * ((e - s) / sqrt 2) = s`. */
  lemma ResponseBack(e: real, s: real)
    ensures e - Sqrt2 * ((e - s) / Sqrt2) == s
  {
  }

  /** The signed response times its sign and `sqrt 2` gives the sum back. */
  lemma SignedResponseBack(x: real, flipsign: bool)
    ensures Sign(flipsign) * Sqrt2 * (1.0 / Sqrt2 * x * Sign(flipsign)) == x
  {
  }

  /** A shifted value times `1 + ratio` is the unscaled sum. */
  lemma ShiftBack(x: real, add: real, ratio: real)
    requires 1.0 + ratio != 0.0
    ensures Shift(x, add, ratio) * (1.0 + ratio) == x + add
  {
    DivMulBack(x + add, 1.0 + ratio);
  }

  /** The two revised squares times `1 + 3 ratio`. */
  lemma SquareSum(sq1: real, sq2: real, n1: real, n2: real, e1: real, e2: real, ne1: real, ne2: real, ratio: real)
    requires 1.0 + 3.0 * ratio != 0.0
    ensures (ShiftSquare(sq1, n1, e1, ne1, ratio) + ShiftSquare(sq2, n2, e2, ne2, ratio)) * (1.0 + 3.0 * ratio)
            == sq1 + sq2 - n1 - n2 + 4.0 * e1 * ne1 + 4.0 * e2 * ne2
  {
    DivSum(sq1 - n1 + 4.0 * e1 * ne1, sq2 - n2 + 4.0 * e2 * ne2, 1.0 + 3.0 * ratio);
  }

  /** The two revised selection terms times `1 + 6 ratio`. */
  lemma SelectionPair(c1: real, c2: real, q1: real, q2: real, s0: real, n1: real, n2: real, ratio: real)
    requires 1.0 + 6.0 * ratio != 0.0
    ensures (ShiftSelection(c1, q1, s0, n1, ratio) + ShiftSelection(c2, q2, s0, n2, ratio)) * (1.0 + 6.0 * ratio)
            == c1 + c2 + 3.0 * (q1 + q2) * ratio - s0 * (n1 + n2)
  {
    DivSum(c1 + 3.0 * q1 * ratio - s0 * n1, c2 + 3.0 * q2 * ratio - s0 * n2, 1.0 + 6.0 * ratio);
    SelectionSum(c1, c2, q1, q2, s0, n1, n2, ratio);
  }

  lemma SelectionSum(c1: real, c2: real, q1: real, q2: real, s0: real, n1: real, n2: real, ratio: real)
    ensures (c1 + 3.0 * q1 * ratio - s0 * n1) + (c2 + 3.0 * q2 * ratio - s0 * n2)
            == c1 + c2 + 3.0 * (q1 + q2) * ratio - s0 * (n1 + n2)
  {
  }

  lemma DivMulBack(a: real, d: real)
    requires d != 0.0
    ensures a / d * d == a
  {
  }

  lemma DivSum(a: real, b: real, d: real)
    requires d != 0.0
    ensures (a / d + b / d) * d == a + b
  {
  }

  /** The bias equations the revised record `r` of the raw shape `sh`
      solves, with `ratio = N00N00 / weight**2`: the revised e1, e2 and s0
      undo the `1 + ratio` scaling; eSquare is the sum of the revised
      squares, each built from the revised e1 or e2; `eSquare - sqrt 2 * RS`
      is the sum of the revised selection terms, built from the revised
      squares and s0; and RE is `(s0 - s4 + eSquare) / sqrt 2` of the
      revised values, under the sign `flipsign` gives it, where the revised
      s4 solves its own equation. */
  ghost predicate SolvesRevision(r: Ellipticity, sh: Shape, n: Covariance, w: real, flipsign: bool)
    requires w != 0.0
  {
    var ratio := Scaled(n.n00n00, w);
    r.e1 * (1.0 + ratio) == sh.e1 + Scaled(n.n00n22c, w)
    && r.e2 * (1.0 + ratio) == sh.e2 + Scaled(n.n00n22s, w)
    && r.s0 * (1.0 + ratio) == sh.s0 + ratio
    && r.eSquare * (1.0 + 3.0 * ratio) ==
         sh.e1sq + sh.e2sq - Scaled(n.n22cn22c, w) - Scaled(n.n22sn22s, w)
         + 4.0 * r.e1 * Scaled(n.n00n22c, w) + 4.0 * r.e2 * Scaled(n.n00n22s, w)
    && (r.eSquare - Sqrt2 * r.rs) * (1.0 + 6.0 * ratio) ==
         sh.e1sqS0 + sh.e2sqS0 + 3.0 * r.eSquare * ratio
         - r.s0 * (Scaled(n.n22cn22c, w) + Scaled(n.n22sn22s, w))
    && (r.s0 + r.eSquare - Sign(flipsign) * Sqrt2 * r.re) * (1.0 + ratio) == sh.s4 + Scaled(n.n00n40, w)
  }

  /** The revision of any raw shape solves the bias equations. */
  lemma RevisedRecord(sh: Shape, n: Covariance, w: real, flipsign: bool)
    requires Revisable(n, w)
    ensures SolvesRevision(Finish(Revise(sh, n, w), flipsign), sh, n, w, flipsign)
  {
    var rv := Revise(sh, n, w);
    FinishFields(rv, flipsign);
    ReviseFirst(sh, n, w);
    ReviseSquares(sh, n, w);
    ReviseSelections(sh, n, w);
  }

  /** With `rev`, each record of fpfsM2E solves the bias equations for
      the raw shape of its moments. */
  lemma RevisionChain(m: Moments, n: Covariance, const_: real, flipsign: bool)
    requires Revisable(n, m.m00 + const_)
    ensures SolvesRevision(EllipOf(m, Some(n), const_, true, flipsign), RawShape(m, m.m00 + const_), n, m.m00 + const_, flipsign)
  {
    var w := m.m00 + const_;
    EllipRevised(m, n, const_, flipsign);
    RevisedRecord(RawShape(m, w), n, w, flipsign);
  }
}
