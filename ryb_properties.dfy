/** What the conversion promises: endpoints and corners are reproduced, results
    stay inside the corners' range, the blend along each axis is affine in that
    axis's weight, and the nesting order of the three blends does not matter. */
module RybProperties {
  import opened Colors
  import opened Ryb

  // ---------------------------------------------------------------------------
  // weight

  /** With func(0) = 0, weight at t = 0 is the first endpoint. */
  lemma WeightAtStart(c0: Color, c1: Color, func: real -> real)
    requires func(0.0) == 0.0
    ensures Weight(0.0, c0, c1, func) == c0
  {
  }

  /** With func(1) = 1, weight at t = 255 is the second endpoint. */
  lemma WeightAtEnd(c0: Color, c1: Color, func: real -> real)
    requires func(1.0) == 1.0
    ensures Weight(255.0, c0, c1, func) == c1
  {
  }

  lemma MulNonnegative(x: real, y: real)
    requires x >= 0.0 && y >= 0.0
    ensures x * y >= 0.0
  {
  }

  /** A scalar blend a + (b - a) * w with 0 <= w <= 1 stays in any interval holding a and b. */
  lemma LerpWithin(a: real, b: real, w: real, lo: real, hi: real)
    requires 0.0 <= w <= 1.0
    requires lo <= a <= hi && lo <= b <= hi
    ensures lo <= a + (b - a) * w <= hi
  {
    assert a + (b - a) * w == a * (1.0 - w) + b * w;
    MulNonnegative(a - lo, 1.0 - w);
    MulNonnegative(b - lo, w);
    MulNonnegative(hi - a, 1.0 - w);
    MulNonnegative(hi - b, w);
  }

  /** If the blend factor func(t / 255) is in [0, 1], weight keeps every channel inside
      any box that holds both endpoints. */
  lemma WeightWithin(t: real, c0: Color, c1: Color, func: real -> real, lo: Color, hi: Color)
    requires 0.0 <= func(t / 255.0) <= 1.0
    requires Within(c0, lo, hi) && Within(c1, lo, hi)
    ensures Within(Weight(t, c0, c1, func), lo, hi)
  {
    var w := func(t / 255.0);
    LerpWithin(c0.red, c1.red, w, lo.red, hi.red);
    LerpWithin(c0.green, c1.green, w, lo.green, hi.green);
    LerpWithin(c0.blue, c1.blue, w, lo.blue, hi.blue);
  }

  /** With the identity blend and 0 <= t <= 255, every channel of weight lies between
      the matching channels of the two endpoints. */
  lemma WeightBetweenEndpoints(t: real, c0: Color, c1: Color)
    requires 0.0 <= t <= 255.0
    ensures Within(Weight(t, c0, c1, Identity), Meet(c0, c1), Join(c0, c1))
  {
    WeightWithin(t, c0, c1, Identity, Meet(c0, c1), Join(c0, c1));
  }

  /** With the identity blend, weight is affine in t: its second difference is zero. */
  lemma WeightSecondDifference(t0: real, d: real, c0: Color, c1: Color)
    ensures Plus(Weight(t0 + 2.0 * d, c0, c1, Identity), Weight(t0, c0, c1, Identity))
         == Times(Weight(t0 + d, c0, c1, Identity), 2.0)
  {
  }

  // ---------------------------------------------------------------------------
  // Reference form: the trilinear sum over the eight corners

  /** Scalar trilinear sum over eight corner values. */
  function Trilinear(a000: real, a001: real, a010: real, a011: real,
                     a100: real, a101: real, a110: real, a111: real,
                     wr: real, wy: real, wb: real): real
  {
    a000 * ((1.0 - wr) * (1.0 - wy) * (1.0 - wb)) + a001 * ((1.0 - wr) * (1.0 - wy) * wb)
    + a010 * ((1.0 - wr) * wy * (1.0 - wb)) + a011 * ((1.0 - wr) * wy * wb)
    + a100 * (wr * (1.0 - wy) * (1.0 - wb)) + a101 * (wr * (1.0 - wy) * wb)
    + a110 * (wr * wy * (1.0 - wb)) + a111 * (wr * wy * wb)
  }

  function Lerp(a: real, b: real, w: real): real
  {
    a + (b - a) * w
  }

  /** Blending b, then y, then r computes the trilinear sum. */
  lemma LerpBYR(a000: real, a001: real, a010: real, a011: real,
                a100: real, a101: real, a110: real, a111: real,
                wr: real, wy: real, wb: real)
    ensures Lerp(Lerp(Lerp(a000, a001, wb), Lerp(a010, a011, wb), wy),
                 Lerp(Lerp(a100, a101, wb), Lerp(a110, a111, wb), wy), wr)
         == Trilinear(a000, a001, a010, a011, a100, a101, a110, a111, wr, wy, wb)
  {
  }

  /** The trilinear sum over the lattice, channel by channel: every corner scaled by
      the product of its three axis weights (1 - w at the low end of an axis, w at
      the high end). */
  function CornerSum(lattice: Lattice, wr: real, wy: real, wb: real): Color
  {
    var L := lattice;
    Color(
      Trilinear(L.c000.red, L.c001.red, L.c010.red, L.c011.red,
                L.c100.red, L.c101.red, L.c110.red, L.c111.red, wr, wy, wb),
      Trilinear(L.c000.green, L.c001.green, L.c010.green, L.c011.green,
                L.c100.green, L.c101.green, L.c110.green, L.c111.green, wr, wy, wb),
      Trilinear(L.c000.blue, L.c001.blue, L.c010.blue, L.c011.blue,
                L.c100.blue, L.c101.blue, L.c110.blue, L.c111.blue, wr, wy, wb))
  }

  /** weight, channel by channel, is the scalar blend of the endpoints' channels. */
  lemma WeightIsLerp(t: real, c0: Color, c1: Color, func: real -> real)
    ensures var w := func(t / 255.0);
            Weight(t, c0, c1, func)
            == Color(Lerp(c0.red, c1.red, w), Lerp(c0.green, c1.green, w), Lerp(c0.blue, c1.blue, w))
  {
    var w := func(t / 255.0);
    assert Weight(t, c0, c1, func) == Plus(c0, Times(Minus(c1, c0), w));
  }

  /** ryb_to_rgb is the trilinear sum of the corners, weighted by func of each
      normalised coordinate, for every blending function. */
  lemma RybToRgbIsCornerSum(lattice: Lattice, r: real, y: real, b: real, func: real -> real)
    ensures RybToRgb(lattice, r, y, b, func)
         == CornerSum(lattice, func(r / 255.0), func(y / 255.0), func(b / 255.0))
  {
    var L := lattice;
    var d_00 := Weight(b, L.At(0, 0, 0), L.At(0, 0, 1), func);
    var d_01 := Weight(b, L.At(0, 1, 0), L.At(0, 1, 1), func);
    var d_10 := Weight(b, L.At(1, 0, 0), L.At(1, 0, 1), func);
    var d_11 := Weight(b, L.At(1, 1, 0), L.At(1, 1, 1), func);
    var e_0 := Weight(y, d_00, d_01, func);
    var e_1 := Weight(y, d_10, d_11, func);
    assert RybToRgb(L, r, y, b, func) == Weight(r, e_0, e_1, func);
    WeightIsLerp(b, L.At(0, 0, 0), L.At(0, 0, 1), func);
    WeightIsLerp(b, L.At(0, 1, 0), L.At(0, 1, 1), func);
    WeightIsLerp(b, L.At(1, 0, 0), L.At(1, 0, 1), func);
    WeightIsLerp(b, L.At(1, 1, 0), L.At(1, 1, 1), func);
    WeightIsLerp(y, d_00, d_01, func);
    WeightIsLerp(y, d_10, d_11, func);
    WeightIsLerp(r, e_0, e_1, func);
    var wr, wy, wb := func(r / 255.0), func(y / 255.0), func(b / 255.0);
    LerpBYR(L.c000.red, L.c001.red, L.c010.red, L.c011.red, L.c100.red, L.c101.red, L.c110.red, L.c111.red, wr, wy, wb);
    LerpBYR(L.c000.green, L.c001.green, L.c010.green, L.c011.green, L.c100.green, L.c101.green, L.c110.green, L.c111.green, wr, wy, wb);
    LerpBYR(L.c000.blue, L.c001.blue, L.c010.blue, L.c011.blue, L.c100.blue, L.c101.blue, L.c110.blue, L.c111.blue, wr, wy, wb);
  }

  // ---------------------------------------------------------------------------
  // The same interpolation in other axis orders

  /** Blend along r first (for each (y-bit, b-bit) pair), then along y, then along b. */
  function RybToRgbOrderRYB(lattice: Lattice, r: real, y: real, b: real, func: real -> real): Color
  {
    var d_00 := Weight(r, lattice.At(0, 0, 0), lattice.At(1, 0, 0), func);
    var d_01 := Weight(r, lattice.At(0, 0, 1), lattice.At(1, 0, 1), func);
    var d_10 := Weight(r, lattice.At(0, 1, 0), lattice.At(1, 1, 0), func);
    var d_11 := Weight(r, lattice.At(0, 1, 1), lattice.At(1, 1, 1), func);
    var e_0 := Weight(y, d_00, d_10, func);
    var e_1 := Weight(y, d_01, d_11, func);
    Weight(b, e_0, e_1, func)
  }

  /** Blend along y first (for each (r-bit, b-bit) pair), then along r, then along b. */
  function RybToRgbOrderYRB(lattice: Lattice, r: real, y: real, b: real, func: real -> real): Color
  {
    var d_00 := Weight(y, lattice.At(0, 0, 0), lattice.At(0, 1, 0), func);
    var d_01 := Weight(y, lattice.At(0, 0, 1), lattice.At(0, 1, 1), func);
    var d_10 := Weight(y, lattice.At(1, 0, 0), lattice.At(1, 1, 0), func);
    var d_11 := Weight(y, lattice.At(1, 0, 1), lattice.At(1, 1, 1), func);
    var e_0 := Weight(r, d_00, d_10, func);
    var e_1 := Weight(r, d_01, d_11, func);
    Weight(b, e_0, e_1, func)
  }

  /** Blend along b first (for each (r-bit, y-bit) pair), then along r, then along y. */
  function RybToRgbOrderBRY(lattice: Lattice, r: real, y: real, b: real, func: real -> real): Color
  {
    var d_00 := Weight(b, lattice.At(0, 0, 0), lattice.At(0, 0, 1), func);
    var d_01 := Weight(b, lattice.At(0, 1, 0), lattice.At(0, 1, 1), func);
    var d_10 := Weight(b, lattice.At(1, 0, 0), lattice.At(1, 0, 1), func);
    var d_11 := Weight(b, lattice.At(1, 1, 0), lattice.At(1, 1, 1), func);
    var e_0 := Weight(r, d_00, d_10, func);
    var e_1 := Weight(r, d_01, d_11, func);
    Weight(y, e_0, e_1, func)
  }

  /** Blend along r first (for each (y-bit, b-bit) pair), then along b, then along y. */
  function RybToRgbOrderRBY(lattice: Lattice, r: real, y: real, b: real, func: real -> real): Color
  {
    var d_00 := Weight(r, lattice.At(0, 0, 0), lattice.At(1, 0, 0), func);
    var d_01 := Weight(r, lattice.At(0, 0, 1), lattice.At(1, 0, 1), func);
    var d_10 := Weight(r, lattice.At(0, 1, 0), lattice.At(1, 1, 0), func);
    var d_11 := Weight(r, lattice.At(0, 1, 1), lattice.At(1, 1, 1), func);
    var e_0 := Weight(b, d_00, d_01, func);
    var e_1 := Weight(b, d_10, d_11, func);
    Weight(y, e_0, e_1, func)
  }

  /** Blend along y first (for each (r-bit, b-bit) pair), then along b, then along r. */
  function RybToRgbOrderYBR(lattice: Lattice, r: real, y: real, b: real, func: real -> real): Color
  {
    var d_00 := Weight(y, lattice.At(0, 0, 0), lattice.At(0, 1, 0), func);
    var d_01 := Weight(y, lattice.At(0, 0, 1), lattice.At(0, 1, 1), func);
    var d_10 := Weight(y, lattice.At(1, 0, 0), lattice.At(1, 1, 0), func);
    var d_11 := Weight(y, lattice.At(1, 0, 1), lattice.At(1, 1, 1), func);
    var e_0 := Weight(b, d_00, d_01, func);
    var e_1 := Weight(b, d_10, d_11, func);
    Weight(r, e_0, e_1, func)
  }

  lemma LerpRYB(a000: real, a001: real, a010: real, a011: real,
                a100: real, a101: real, a110: real, a111: real,
                wr: real, wy: real, wb: real)
    ensures Lerp(Lerp(Lerp(a000, a100, wr), Lerp(a010, a110, wr), wy),
                 Lerp(Lerp(a001, a101, wr), Lerp(a011, a111, wr), wy), wb)
         == Trilinear(a000, a001, a010, a011, a100, a101, a110, a111, wr, wy, wb)
  {
  }

  lemma LerpYRB(a000: real, a001: real, a010: real, a011: real,
                a100: real, a101: real, a110: real, a111: real,
                wr: real, wy: real, wb: real)
    ensures Lerp(Lerp(Lerp(a000, a010, wy), Lerp(a100, a110, wy), wr),
                 Lerp(Lerp(a001, a011, wy), Lerp(a101, a111, wy), wr), wb)
         == Trilinear(a000, a001, a010, a011, a100, a101, a110, a111, wr, wy, wb)
  {
  }

  lemma LerpBRY(a000: real, a001: real, a010: real, a011: real,
                a100: real, a101: real, a110: real, a111: real,
                wr: real, wy: real, wb: real)
    ensures Lerp(Lerp(Lerp(a000, a001, wb), Lerp(a100, a101, wb), wr),
                 Lerp(Lerp(a010, a011, wb), Lerp(a110, a111, wb), wr), wy)
         == Trilinear(a000, a001, a010, a011, a100, a101, a110, a111, wr, wy, wb)
  {
  }

  lemma LerpRBY(a000: real, a001: real, a010: real, a011: real,
                a100: real, a101: real, a110: real, a111: real,
                wr: real, wy: real, wb: real)
    ensures Lerp(Lerp(Lerp(a000, a100, wr), Lerp(a001, a101, wr), wb),
                 Lerp(Lerp(a010, a110, wr), Lerp(a011, a111, wr), wb), wy)
         == Trilinear(a000, a001, a010, a011, a100, a101, a110, a111, wr, wy, wb)
  {
  }

  lemma LerpYBR(a000: real, a001: real, a010: real, a011: real,
                a100: real, a101: real, a110: real, a111: real,
                wr: real, wy: real, wb: real)
    ensures Lerp(Lerp(Lerp(a000, a010, wy), Lerp(a001, a011, wy), wb),
                 Lerp(Lerp(a100, a110, wy), Lerp(a101, a111, wy), wb), wr)
         == Trilinear(a000, a001, a010, a011, a100, a101, a110, a111, wr, wy, wb)
  {
  }

  /** Interpolating r, then y, then b gives the same colour as the original order
      b, then y, then r, for every blending function. */
  lemma OrderRYBAgrees(lattice: Lattice, r: real, y: real, b: real, func: real -> real)
    ensures RybToRgbOrderRYB(lattice, r, y, b, func) == RybToRgb(lattice, r, y, b, func)
  {
    var L := lattice;
    var d_00 := Weight(r, L.At(0, 0, 0), L.At(1, 0, 0), func);
    var d_01 := Weight(r, L.At(0, 0, 1), L.At(1, 0, 1), func);
    var d_10 := Weight(r, L.At(0, 1, 0), L.At(1, 1, 0), func);
    var d_11 := Weight(r, L.At(0, 1, 1), L.At(1, 1, 1), func);
    var e_0 := Weight(y, d_00, d_10, func);
    var e_1 := Weight(y, d_01, d_11, func);
    assert RybToRgbOrderRYB(L, r, y, b, func) == Weight(b, e_0, e_1, func);
    WeightIsLerp(r, L.At(0, 0, 0), L.At(1, 0, 0), func);
    WeightIsLerp(r, L.At(0, 0, 1), L.At(1, 0, 1), func);
    WeightIsLerp(r, L.At(0, 1, 0), L.At(1, 1, 0), func);
    WeightIsLerp(r, L.At(0, 1, 1), L.At(1, 1, 1), func);
    WeightIsLerp(y, d_00, d_10, func);
    WeightIsLerp(y, d_01, d_11, func);
    WeightIsLerp(b, e_0, e_1, func);
    var wr, wy, wb := func(r / 255.0), func(y / 255.0), func(b / 255.0);
    LerpRYB(L.c000.red, L.c001.red, L.c010.red, L.c011.red, L.c100.red, L.c101.red, L.c110.red, L.c111.red, wr, wy, wb);
    LerpRYB(L.c000.green, L.c001.green, L.c010.green, L.c011.green, L.c100.green, L.c101.green, L.c110.green, L.c111.green, wr, wy, wb);
    LerpRYB(L.c000.blue, L.c001.blue, L.c010.blue, L.c011.blue, L.c100.blue, L.c101.blue, L.c110.blue, L.c111.blue, wr, wy, wb);
    RybToRgbIsCornerSum(lattice, r, y, b, func);
  }

  /** Interpolating y, then r, then b gives the same colour as the original order. */
  lemma OrderYRBAgrees(lattice: Lattice, r: real, y: real, b: real, func: real -> real)
    ensures RybToRgbOrderYRB(lattice, r, y, b, func) == RybToRgb(lattice, r, y, b, func)
  {
    var L := lattice;
    var d_00 := Weight(y, L.At(0, 0, 0), L.At(0, 1, 0), func);
    var d_01 := Weight(y, L.At(0, 0, 1), L.At(0, 1, 1), func);
    var d_10 := Weight(y, L.At(1, 0, 0), L.At(1, 1, 0), func);
    var d_11 := Weight(y, L.At(1, 0, 1), L.At(1, 1, 1), func);
    var e_0 := Weight(r, d_00, d_10, func);
    var e_1 := Weight(r, d_01, d_11, func);
    assert RybToRgbOrderYRB(L, r, y, b, func) == Weight(b, e_0, e_1, func);
    WeightIsLerp(y, L.At(0, 0, 0), L.At(0, 1, 0), func);
    WeightIsLerp(y, L.At(0, 0, 1), L.At(0, 1, 1), func);
    WeightIsLerp(y, L.At(1, 0, 0), L.At(1, 1, 0), func);
    WeightIsLerp(y, L.At(1, 0, 1), L.At(1, 1, 1), func);
    WeightIsLerp(r, d_00, d_10, func);
    WeightIsLerp(r, d_01, d_11, func);
    WeightIsLerp(b, e_0, e_1, func);
    var wr, wy, wb := func(r / 255.0), func(y / 255.0), func(b / 255.0);
    LerpYRB(L.c000.red, L.c001.red, L.c010.red, L.c011.red, L.c100.red, L.c101.red, L.c110.red, L.c111.red, wr, wy, wb);
    LerpYRB(L.c000.green, L.c001.green, L.c010.green, L.c011.green, L.c100.green, L.c101.green, L.c110.green, L.c111.green, wr, wy, wb);
    LerpYRB(L.c000.blue, L.c001.blue, L.c010.blue, L.c011.blue, L.c100.blue, L.c101.blue, L.c110.blue, L.c111.blue, wr, wy, wb);
    RybToRgbIsCornerSum(lattice, r, y, b, func);
  }

  /** Interpolating b, then r, then y gives the same colour as the original order. */
  lemma OrderBRYAgrees(lattice: Lattice, r: real, y: real, b: real, func: real -> real)
    ensures RybToRgbOrderBRY(lattice, r, y, b, func) == RybToRgb(lattice, r, y, b, func)
  {
    var L := lattice;
    var d_00 := Weight(b, L.At(0, 0, 0), L.At(0, 0, 1), func);
    var d_01 := Weight(b, L.At(0, 1, 0), L.At(0, 1, 1), func);
    var d_10 := Weight(b, L.At(1, 0, 0), L.At(1, 0, 1), func);
    var d_11 := Weight(b, L.At(1, 1, 0), L.At(1, 1, 1), func);
    var e_0 := Weight(r, d_00, d_10, func);
    var e_1 := Weight(r, d_01, d_11, func);
    assert RybToRgbOrderBRY(L, r, y, b, func) == Weight(y, e_0, e_1, func);
    WeightIsLerp(b, L.At(0, 0, 0), L.At(0, 0, 1), func);
    WeightIsLerp(b, L.At(0, 1, 0), L.At(0, 1, 1), func);
    WeightIsLerp(b, L.At(1, 0, 0), L.At(1, 0, 1), func);
    WeightIsLerp(b, L.At(1, 1, 0), L.At(1, 1, 1), func);
    WeightIsLerp(r, d_00, d_10, func);
    WeightIsLerp(r, d_01, d_11, func);
    WeightIsLerp(y, e_0, e_1, func);
    var wr, wy, wb := func(r / 255.0), func(y / 255.0), func(b / 255.0);
    LerpBRY(L.c000.red, L.c001.red, L.c010.red, L.c011.red, L.c100.red, L.c101.red, L.c110.red, L.c111.red, wr, wy, wb);
    LerpBRY(L.c000.green, L.c001.green, L.c010.green, L.c011.green, L.c100.green, L.c101.green, L.c110.green, L.c111.green, wr, wy, wb);
    LerpBRY(L.c000.blue, L.c001.blue, L.c010.blue, L.c011.blue, L.c100.blue, L.c101.blue, L.c110.blue, L.c111.blue, wr, wy, wb);
    RybToRgbIsCornerSum(lattice, r, y, b, func);
  }

  /** Interpolating r, then b, then y gives the same colour as the original order. */
  lemma OrderRBYAgrees(lattice: Lattice, r: real, y: real, b: real, func: real -> real)
    ensures RybToRgbOrderRBY(lattice, r, y, b, func) == RybToRgb(lattice, r, y, b, func)
  {
    var L := lattice;
    var d_00 := Weight(r, L.At(0, 0, 0), L.At(1, 0, 0), func);
    var d_01 := Weight(r, L.At(0, 0, 1), L.At(1, 0, 1), func);
    var d_10 := Weight(r, L.At(0, 1, 0), L.At(1, 1, 0), func);
    var d_11 := Weight(r, L.At(0, 1, 1), L.At(1, 1, 1), func);
    var e_0 := Weight(b, d_00, d_01, func);
    var e_1 := Weight(b, d_10, d_11, func);
    assert RybToRgbOrderRBY(L, r, y, b, func) == Weight(y, e_0, e_1, func);
    WeightIsLerp(r, L.At(0, 0, 0), L.At(1, 0, 0), func);
    WeightIsLerp(r, L.At(0, 0, 1), L.At(1, 0, 1), func);
    WeightIsLerp(r, L.At(0, 1, 0), L.At(1, 1, 0), func);
    WeightIsLerp(r, L.At(0, 1, 1), L.At(1, 1, 1), func);
    WeightIsLerp(b, d_00, d_01, func);
    WeightIsLerp(b, d_10, d_11, func);
    WeightIsLerp(y, e_0, e_1, func);
    var wr, wy, wb := func(r / 255.0), func(y / 255.0), func(b / 255.0);
    LerpRBY(L.c000.red, L.c001.red, L.c010.red, L.c011.red, L.c100.red, L.c101.red, L.c110.red, L.c111.red, wr, wy, wb);
    LerpRBY(L.c000.green, L.c001.green, L.c010.green, L.c011.green, L.c100.green, L.c101.green, L.c110.green, L.c111.green, wr, wy, wb);
    LerpRBY(L.c000.blue, L.c001.blue, L.c010.blue, L.c011.blue, L.c100.blue, L.c101.blue, L.c110.blue, L.c111.blue, wr, wy, wb);
    RybToRgbIsCornerSum(lattice, r, y, b, func);
  }

  /** Interpolating y, then b, then r gives the same colour as the original order. */
  lemma OrderYBRAgrees(lattice: Lattice, r: real, y: real, b: real, func: real -> real)
    ensures RybToRgbOrderYBR(lattice, r, y, b, func) == RybToRgb(lattice, r, y, b, func)
  {
    var L := lattice;
    var d_00 := Weight(y, L.At(0, 0, 0), L.At(0, 1, 0), func);
    var d_01 := Weight(y, L.At(0, 0, 1), L.At(0, 1, 1), func);
    var d_10 := Weight(y, L.At(1, 0, 0), L.At(1, 1, 0), func);
    var d_11 := Weight(y, L.At(1, 0, 1), L.At(1, 1, 1), func);
    var e_0 := Weight(b, d_00, d_01, func);
    var e_1 := Weight(b, d_10, d_11, func);
    assert RybToRgbOrderYBR(L, r, y, b, func) == Weight(r, e_0, e_1, func);
    WeightIsLerp(y, L.At(0, 0, 0), L.At(0, 1, 0), func);
    WeightIsLerp(y, L.At(0, 0, 1), L.At(0, 1, 1), func);
    WeightIsLerp(y, L.At(1, 0, 0), L.At(1, 1, 0), func);
    WeightIsLerp(y, L.At(1, 0, 1), L.At(1, 1, 1), func);
    WeightIsLerp(b, d_00, d_01, func);
    WeightIsLerp(b, d_10, d_11, func);
    WeightIsLerp(r, e_0, e_1, func);
    var wr, wy, wb := func(r / 255.0), func(y / 255.0), func(b / 255.0);
    LerpYBR(L.c000.red, L.c001.red, L.c010.red, L.c011.red, L.c100.red, L.c101.red, L.c110.red, L.c111.red, wr, wy, wb);
    LerpYBR(L.c000.green, L.c001.green, L.c010.green, L.c011.green, L.c100.green, L.c101.green, L.c110.green, L.c111.green, wr, wy, wb);
    LerpYBR(L.c000.blue, L.c001.blue, L.c010.blue, L.c011.blue, L.c100.blue, L.c101.blue, L.c110.blue, L.c111.blue, wr, wy, wb);
    RybToRgbIsCornerSum(lattice, r, y, b, func);
  }

  // ---------------------------------------------------------------------------
  // Corners

  /** At a lattice coordinate 0 or 255, weight picks the matching endpoint. */
  lemma WeightAtBit(i: Bit, c0: Color, c1: Color, func: real -> real)
    requires func(0.0) == 0.0 && func(1.0) == 1.0
    ensures Weight(255.0 * i as real, c0, c1, func) == if i == 0 then c0 else c1
  {
    if i == 0 {
      WeightAtStart(c0, c1, func);
    } else {
      WeightAtEnd(c0, c1, func);
    }
  }

  /** At every lattice corner (each coordinate 0 or 255) ryb_to_rgb returns that
      corner's colour, for any blend with func(0) = 0 and func(1) = 1. */
  lemma CornerReproduced(lattice: Lattice, i: Bit, j: Bit, k: Bit, func: real -> real)
    requires func(0.0) == 0.0 && func(1.0) == 1.0
    ensures RybToRgb(lattice, 255.0 * i as real, 255.0 * j as real, 255.0 * k as real, func)
         == lattice.At(i, j, k)
  {
    var L := lattice;
    WeightAtBit(k, L.At(i, 0, 0), L.At(i, 0, 1), func);
    WeightAtBit(k, L.At(i, 1, 0), L.At(i, 1, 1), func);
    WeightAtBit(k, L.At(1 - i, 0, 0), L.At(1 - i, 0, 1), func);
    WeightAtBit(k, L.At(1 - i, 1, 0), L.At(1 - i, 1, 1), func);
    var c1_0 := if k == 0 then L.At(i, 0, 0) else L.At(i, 0, 1);
    var c1_1 := if k == 0 then L.At(i, 1, 0) else L.At(i, 1, 1);
    var c1_0' := if k == 0 then L.At(1 - i, 0, 0) else L.At(1 - i, 0, 1);
    var c1_1' := if k == 0 then L.At(1 - i, 1, 0) else L.At(1 - i, 1, 1);
    WeightAtBit(j, c1_0, c1_1, func);
    WeightAtBit(j, c1_0', c1_1', func);
    var c2 := if j == 0 then c1_0 else c1_1;
    var c2' := if j == 0 then c1_0' else c1_1';
    if i == 0 {
      WeightAtBit(i, c2, c2', func);
    } else {
      WeightAtBit(i, c2', c2, func);
    }
  }

  /** With the active (paper's) palette and the default blend, (0, 0, 0) is white and
      (255, 255, 255) is the paper's black (0.2, 0.094, 0) * 255. */
  lemma PaperWhiteAndBlack()
    ensures RybToRgb(Active, 0.0, 0.0, 0.0) == Color(255.0, 255.0, 255.0)
    ensures RybToRgb(Active, 255.0, 255.0, 255.0) == Color(51.0, 23.97, 0.0)
  {
    CornerReproduced(Active, 0, 0, 0, Identity);
    CornerReproduced(Active, 1, 1, 1, Identity);
  }

  /** With the paper's palette and the default blend, pure red is the red corner. */
  lemma PaperRed()
    ensures RybToRgb(Paper, 255.0, 0.0, 0.0) == Color(255.0, 0.0, 0.0)
  {
    CornerReproduced(Paper, 1, 0, 0, Identity);
  }

  /** Pure yellow is the yellow corner. */
  lemma PaperYellow()
    ensures RybToRgb(Paper, 0.0, 255.0, 0.0) == Color(255.0, 255.0, 0.0)
  {
    CornerReproduced(Paper, 0, 1, 0, Identity);
  }

  /** Pure blue is the paper's blue (0.163, 0.373, 0.6) * 255. */
  lemma PaperBlue()
    ensures RybToRgb(Paper, 0.0, 0.0, 255.0) == Color(41.565, 95.115, 153.0)
  {
    CornerReproduced(Paper, 0, 0, 1, Identity);
  }

  /** Full red and yellow is the orange corner. */
  lemma PaperOrange()
    ensures RybToRgb(Paper, 255.0, 255.0, 0.0) == Color(255.0, 127.5, 0.0)
  {
    CornerReproduced(Paper, 1, 1, 0, Identity);
  }

  /** The paletton.com table is shadowed in the script, but used as the lattice it
      gives white at (0, 0, 0) and black at (255, 255, 255) as well. */
  lemma PalettonWhiteAndBlack()
    ensures RybToRgb(Paletton, 0.0, 0.0, 0.0) == Color(255.0, 255.0, 255.0)
    ensures RybToRgb(Paletton, 255.0, 255.0, 255.0) == Color(0.0, 0.0, 0.0)
  {
    CornerReproduced(Paletton, 0, 0, 0, Identity);
    CornerReproduced(Paletton, 1, 1, 1, Identity);
  }

  // ---------------------------------------------------------------------------
  // Affine along each axis

  /** For fixed y and b, ryb_to_rgb is the blend, by the same func, of its values at
      r = 0 and r = 255; likewise for y and for b. */
  lemma StraightLines(lattice: Lattice, r: real, y: real, b: real, func: real -> real)
    requires func(0.0) == 0.0 && func(1.0) == 1.0
    ensures RybToRgb(lattice, r, y, b, func)
         == Weight(r, RybToRgb(lattice, 0.0, y, b, func), RybToRgb(lattice, 255.0, y, b, func), func)
    ensures RybToRgb(lattice, r, y, b, func)
         == Weight(y, RybToRgb(lattice, r, 0.0, b, func), RybToRgb(lattice, r, 255.0, b, func), func)
    ensures RybToRgb(lattice, r, y, b, func)
         == Weight(b, RybToRgb(lattice, r, y, 0.0, func), RybToRgb(lattice, r, y, 255.0, func), func)
  {
    WeightAtStart(RybToRgbOrderBRY(lattice, r, 0.0, b, func), RybToRgbOrderBRY(lattice, r, 255.0, b, func), func);
    OrderRYBAgrees(lattice, r, y, b, func);
    OrderRYBAgrees(lattice, r, y, 0.0, func);
    OrderRYBAgrees(lattice, r, y, 255.0, func);
    OrderBRYAgrees(lattice, r, y, b, func);
    OrderBRYAgrees(lattice, r, 0.0, b, func);
    OrderBRYAgrees(lattice, r, 255.0, b, func);
  }

  /** With the identity blend, r |-> ryb_to_rgb(r, y, b) has zero second difference:
      f(r0 + 2d) + f(r0) == 2 f(r0 + d). */
  lemma SecondDifferenceR(lattice: Lattice, r0: real, d: real, y: real, b: real)
    ensures Plus(RybToRgb(lattice, r0 + 2.0 * d, y, b), RybToRgb(lattice, r0, y, b))
         == Times(RybToRgb(lattice, r0 + d, y, b), 2.0)
  {
    StraightLines(lattice, r0 + 2.0 * d, y, b, Identity);
    StraightLines(lattice, r0 + d, y, b, Identity);
    StraightLines(lattice, r0, y, b, Identity);
    WeightSecondDifference(r0, d, RybToRgb(lattice, 0.0, y, b), RybToRgb(lattice, 255.0, y, b));
  }

  /** The same along the y axis. */
  lemma SecondDifferenceY(lattice: Lattice, r: real, y0: real, d: real, b: real)
    ensures Plus(RybToRgb(lattice, r, y0 + 2.0 * d, b), RybToRgb(lattice, r, y0, b))
         == Times(RybToRgb(lattice, r, y0 + d, b), 2.0)
  {
    StraightLines(lattice, r, y0 + 2.0 * d, b, Identity);
    StraightLines(lattice, r, y0 + d, b, Identity);
    StraightLines(lattice, r, y0, b, Identity);
    WeightSecondDifference(y0, d, RybToRgb(lattice, r, 0.0, b), RybToRgb(lattice, r, 255.0, b));
  }

  /** The same along the b axis. */
  lemma SecondDifferenceB(lattice: Lattice, r: real, y: real, b0: real, d: real)
    ensures Plus(RybToRgb(lattice, r, y, b0 + 2.0 * d), RybToRgb(lattice, r, y, b0))
         == Times(RybToRgb(lattice, r, y, b0 + d), 2.0)
  {
    StraightLines(lattice, r, y, b0 + 2.0 * d, Identity);
    StraightLines(lattice, r, y, b0 + d, Identity);
    StraightLines(lattice, r, y, b0, Identity);
    WeightSecondDifference(b0, d, RybToRgb(lattice, r, y, 0.0), RybToRgb(lattice, r, y, 255.0));
  }

  // ---------------------------------------------------------------------------
  // Bounds

  /** Channel-wise minimum over the eight corners. */
  function Lower(lattice: Lattice): Color
  {
    var L := lattice;
    Meet(Meet(Meet(L.c000, L.c001), Meet(L.c010, L.c011)), Meet(Meet(L.c100, L.c101), Meet(L.c110, L.c111)))
  }

  /** Channel-wise maximum over the eight corners. */
  function Upper(lattice: Lattice): Color
  {
    var L := lattice;
    Join(Join(Join(L.c000, L.c001), Join(L.c010, L.c011)), Join(Join(L.c100, L.c101), Join(L.c110, L.c111)))
  }

  /** If each axis's blend factor is in [0, 1], every output channel lies between the
      minimum and the maximum of that channel over the eight corners. */
  lemma WithinCorners(lattice: Lattice, r: real, y: real, b: real, func: real -> real)
    requires 0.0 <= func(r / 255.0) <= 1.0
    requires 0.0 <= func(y / 255.0) <= 1.0
    requires 0.0 <= func(b / 255.0) <= 1.0
    ensures Within(RybToRgb(lattice, r, y, b, func), Lower(lattice), Upper(lattice))
  {
    var L, lo, hi := lattice, Lower(lattice), Upper(lattice);
    var c1_00 := Weight(b, L.At(0, 0, 0), L.At(0, 0, 1), func);
    var c1_01 := Weight(b, L.At(0, 1, 0), L.At(0, 1, 1), func);
    var c1_10 := Weight(b, L.At(1, 0, 0), L.At(1, 0, 1), func);
    var c1_11 := Weight(b, L.At(1, 1, 0), L.At(1, 1, 1), func);
    WeightWithin(b, L.At(0, 0, 0), L.At(0, 0, 1), func, lo, hi);
    WeightWithin(b, L.At(0, 1, 0), L.At(0, 1, 1), func, lo, hi);
    WeightWithin(b, L.At(1, 0, 0), L.At(1, 0, 1), func, lo, hi);
    WeightWithin(b, L.At(1, 1, 0), L.At(1, 1, 1), func, lo, hi);
    WeightWithin(y, c1_00, c1_01, func, lo, hi);
    WeightWithin(y, c1_10, c1_11, func, lo, hi);
    WeightWithin(r, Weight(y, c1_00, c1_01, func), Weight(y, c1_10, c1_11, func), func, lo, hi);
  }

  /** With the identity blend and r, y, b in [0, 255], the output stays within the corners' range. */
  lemma IdentityWithinCorners(lattice: Lattice, r: real, y: real, b: real)
    requires 0.0 <= r <= 255.0 && 0.0 <= y <= 255.0 && 0.0 <= b <= 255.0
    ensures Within(RybToRgb(lattice, r, y, b), Lower(lattice), Upper(lattice))
  {
    WithinCorners(lattice, r, y, b, Identity);
  }

  // ---------------------------------------------------------------------------
  // The smoothstep blend

  /** The paper's blend meets the contract documented for func. */
  lemma SmoothstepEndpoints()
    ensures Smoothstep(0.0) == 0.0 && Smoothstep(1.0) == 1.0
  {
  }

  /** The paper's blend maps [0, 1] into [0, 1]. */
  lemma SmoothstepRange(t: real)
    requires 0.0 <= t <= 1.0
    ensures 0.0 <= Smoothstep(t) <= 1.0
  {
    MulNonnegative(t * t, 3.0 - 2.0 * t);
    assert 1.0 - Smoothstep(t) == (1.0 - t) * (1.0 - t) * (1.0 + 2.0 * t);
    MulNonnegative((1.0 - t) * (1.0 - t), 1.0 + 2.0 * t);
  }

  /** Corners are reproduced under the paper's blend too. */
  lemma SmoothstepCornerReproduced(lattice: Lattice, i: Bit, j: Bit, k: Bit)
    ensures RybToRgb(lattice, 255.0 * i as real, 255.0 * j as real, 255.0 * k as real, Smoothstep)
         == lattice.At(i, j, k)
  {
    SmoothstepEndpoints();
    CornerReproduced(lattice, i, j, k, Smoothstep);
  }

  /** Under the paper's blend, with r, y, b in [0, 255], the output stays within the corners' range. */
  lemma SmoothstepWithinCorners(lattice: Lattice, r: real, y: real, b: real)
    requires 0.0 <= r <= 255.0 && 0.0 <= y <= 255.0 && 0.0 <= b <= 255.0
    ensures Within(RybToRgb(lattice, r, y, b, Smoothstep), Lower(lattice), Upper(lattice))
  {
    SmoothstepRange(r / 255.0);
    SmoothstepRange(y / 255.0);
    SmoothstepRange(b / 255.0);
    WithinCorners(lattice, r, y, b, Smoothstep);
  }
}
