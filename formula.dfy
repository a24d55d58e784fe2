/** The closed form the script prints: ryb_to_rgb with the identity blend,
    expanded into one polynomial in r, y and b per output channel. Only the
    polynomial's coefficients are modelled, not the symbolic algebra that
    derives them or the text that prints them. */
module RybFormula {
  import opened Colors
  import opened Ryb
  import opened RybProperties

  /** A polynomial in r, y and b that is of degree at most one in each variable. */
  datatype Polynomial = Polynomial(
    constant: real, r: real, y: real, b: real, ry: real, rb: real, yb: real, ryb: real)

  function Evaluate(p: Polynomial, r: real, y: real, b: real): real
  {
    p.constant + p.r * r + p.y * y + p.b * b
    + p.ry * (r * y) + p.rb * (r * b) + p.yb * (y * b) + p.ryb * (r * y * b)
  }

  /** One expanded polynomial per printed line: red, green, blue. */
  datatype Formula = Formula(red: Polynomial, green: Polynomial, blue: Polynomial)

  function EvaluateFormula(f: Formula, r: real, y: real, b: real): Color
  {
    Color(Evaluate(f.red, r, y, b), Evaluate(f.green, r, y, b), Evaluate(f.blue, r, y, b))
  }

  /** The expanded coefficients of one channel, from that channel's eight corner values;
      a monomial of degree n is divided by 255^n because each coordinate enters as t / 255. */
  function ExpandChannel(a000: real, a001: real, a010: real, a011: real,
                         a100: real, a101: real, a110: real, a111: real): Polynomial
  {
    Polynomial(
      a000,
      (a100 - a000) / 255.0,
      (a010 - a000) / 255.0,
      (a001 - a000) / 255.0,
      (a110 - a100 - a010 + a000) / (255.0 * 255.0),
      (a101 - a100 - a001 + a000) / (255.0 * 255.0),
      (a011 - a010 - a001 + a000) / (255.0 * 255.0),
      (a111 - a110 - a101 - a011 + a100 + a010 + a001 - a000) / (255.0 * 255.0 * 255.0))
  }

  /** The three expanded polynomials for a lattice. */
  function Expanded(lattice: Lattice): Formula
  {
    var L := lattice;
    Formula(
      ExpandChannel(L.c000.red, L.c001.red, L.c010.red, L.c011.red,
                    L.c100.red, L.c101.red, L.c110.red, L.c111.red),
      ExpandChannel(L.c000.green, L.c001.green, L.c010.green, L.c011.green,
                    L.c100.green, L.c101.green, L.c110.green, L.c111.green),
      ExpandChannel(L.c000.blue, L.c001.blue, L.c010.blue, L.c011.blue,
                    L.c100.blue, L.c101.blue, L.c110.blue, L.c111.blue))
  }

  /** The trilinear sum written as a polynomial in the three weights. */
  lemma TrilinearMonomials(a000: real, a001: real, a010: real, a011: real,
                           a100: real, a101: real, a110: real, a111: real,
                           wr: real, wy: real, wb: real)
    ensures Trilinear(a000, a001, a010, a011, a100, a101, a110, a111, wr, wy, wb)
         == a000 + (a100 - a000) * wr + (a010 - a000) * wy + (a001 - a000) * wb
            + (a110 - a100 - a010 + a000) * (wr * wy)
            + (a101 - a100 - a001 + a000) * (wr * wb)
            + (a011 - a010 - a001 + a000) * (wy * wb)
            + (a111 - a110 - a101 - a011 + a100 + a010 + a001 - a000) * (wr * wy * wb)
  {
  }

  /** Evaluating a channel's expanded polynomial gives the trilinear sum at t / 255. */
  lemma ExpandChannelAgrees(a000: real, a001: real, a010: real, a011: real,
                            a100: real, a101: real, a110: real, a111: real,
                            r: real, y: real, b: real)
    ensures Evaluate(ExpandChannel(a000, a001, a010, a011, a100, a101, a110, a111), r, y, b)
         == Trilinear(a000, a001, a010, a011, a100, a101, a110, a111, r / 255.0, y / 255.0, b / 255.0)
  {
    var wr, wy, wb := r / 255.0, y / 255.0, b / 255.0;
    TrilinearMonomials(a000, a001, a010, a011, a100, a101, a110, a111, wr, wy, wb);
  }

  /** Evaluating the printed formula at any (r, y, b) gives exactly what ryb_to_rgb
      computes there with the identity blend. */
  lemma ExpandedAgrees(lattice: Lattice, r: real, y: real, b: real)
    ensures EvaluateFormula(Expanded(lattice), r, y, b) == RybToRgb(lattice, r, y, b)
  {
    var L := lattice;
    ExpandChannelAgrees(L.c000.red, L.c001.red, L.c010.red, L.c011.red,
                        L.c100.red, L.c101.red, L.c110.red, L.c111.red, r, y, b);
    ExpandChannelAgrees(L.c000.green, L.c001.green, L.c010.green, L.c011.green,
                        L.c100.green, L.c101.green, L.c110.green, L.c111.green, r, y, b);
    ExpandChannelAgrees(L.c000.blue, L.c001.blue, L.c010.blue, L.c011.blue,
                        L.c100.blue, L.c101.blue, L.c110.blue, L.c111.blue, r, y, b);
    RybToRgbIsCornerSum(lattice, r, y, b, Identity);
  }
}
