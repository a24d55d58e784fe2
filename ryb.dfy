/** RYB to RGB conversion by trilinear interpolation over a 2x2x2 lattice of
    corner colours, after "Paint Inspired Color Compositing" by N. Gossett and
    B. Chen (Day2/ryb.py). */
module Ryb {
  import opened Colors

  /** One coordinate of a lattice corner: 0 for the low end of an axis, 1 for the high end. */
  type Bit = x: nat | x < 2

  /** The corner lattice C0, indexed [r][y][b]: field cRYB is the corner with
      r-bit R, y-bit Y and b-bit B. */
  datatype Lattice = Lattice(
    c000: Color, c001: Color, c010: Color, c011: Color,
    c100: Color, c101: Color, c110: Color, c111: Color)
  {
    /** C0[i][j][k]. */
    function At(i: Bit, j: Bit, k: Bit): Color
    {
      if i == 0 then
        if j == 0 then (if k == 0 then c000 else c001) else (if k == 0 then c010 else c011)
      else
        if j == 0 then (if k == 0 then c100 else c101) else (if k == 0 then c110 else c111)
    }
  }

  /** The palette taken from paletton.com: the first table the script binds to C0,
      shadowed by the paper's table before any conversion runs. */
  const Paletton: Lattice := Lattice(
    Color(255.0, 255.0, 255.0),  // white
    Color(3.0, 79.0, 255.0),     // blue
    Color(255.0, 255.0, 0.0),    // yellow
    Color(0.0, 255.0, 0.0),      // green
    Color(255.0, 0.0, 0.0),      // red
    Color(165.0, 1.0, 255.0),    // purple
    Color(255.0, 170.0, 0.0),    // orange
    Color(0.0, 0.0, 0.0))        // black

  /** The palette from the paper, given on a 0..1 scale and multiplied by 255. */
  const Paper: Lattice := Lattice(
    Color(1.0 * 255.0, 1.0 * 255.0, 1.0 * 255.0),      // white
    Color(0.163 * 255.0, 0.373 * 255.0, 0.6 * 255.0),  // blue
    Color(1.0 * 255.0, 1.0 * 255.0, 0.0 * 255.0),      // yellow
    Color(0.0 * 255.0, 0.66 * 255.0, 0.2 * 255.0),     // green
    Color(1.0 * 255.0, 0.0 * 255.0, 0.0 * 255.0),      // red
    Color(0.5 * 255.0, 0.0 * 255.0, 0.5 * 255.0),      // purple
    Color(1.0 * 255.0, 0.5 * 255.0, 0.0 * 255.0),      // orange
    Color(0.2 * 255.0, 0.094 * 255.0, 0.0 * 255.0))    // black

  /** The table the conversion uses: the last one assigned to C0. */
  const Active: Lattice := Paper

  /** The default blending function: linear interpolation. */
  function Identity(t: real): real
  {
    t
  }

  /** The cubic blend t*t*(3 - 2*t) the paper uses instead. */
  function Smoothstep(t: real): real
  {
    t * t * (3.0 - 2.0 * t)
  }

  /** weight(t, C, func): blend from c0 (t = 0) towards c1 (t = 255) by func(t / 255),
      channel by channel. func is expected to satisfy func(0) = 0 and func(1) = 1;
      nothing checks it. */
  function Weight(t: real, c0: Color, c1: Color, func: real -> real): (c: Color)
    ensures func(t / 255.0) == 0.0 ==> c == c0
    ensures func(t / 255.0) == 1.0 ==> c == c1
  {
    Plus(c0, Times(Minus(c1, c0), func(t / 255.0)))
  }

  /** ryb_to_rgb(r, y, b, func): blend along b for each (r-bit, y-bit) pair (C1),
      then along y for each r-bit (C2), then along r (C3). */
  function RybToRgb(lattice: Lattice, r: real, y: real, b: real, func: real -> real := Identity): Color
  {
    var c1_00 := Weight(b, lattice.At(0, 0, 0), lattice.At(0, 0, 1), func);
    var c1_01 := Weight(b, lattice.At(0, 1, 0), lattice.At(0, 1, 1), func);
    var c1_10 := Weight(b, lattice.At(1, 0, 0), lattice.At(1, 0, 1), func);
    var c1_11 := Weight(b, lattice.At(1, 1, 0), lattice.At(1, 1, 1), func);
    var c2_0 := Weight(y, c1_00, c1_01, func);
    var c2_1 := Weight(y, c1_10, c1_11, func);
    Weight(r, c2_0, c2_1, func)
  }
}
