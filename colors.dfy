/** Colours as three real channels, with the element-wise arithmetic that the
    original program gets from numpy broadcasting over arrays of shape (3,). */
module Colors {

  /** An RGB colour (red, green, blue), each channel an exact real. */
  datatype Color = Color(red: real, green: real, blue: real)

  /** Element-wise sum. */
  function Plus(a: Color, b: Color): Color
  {
    Color(a.red + b.red, a.green + b.green, a.blue + b.blue)
  }

  /** Element-wise difference. */
  function Minus(a: Color, b: Color): (c: Color)
    ensures Plus(c, b) == a
  {
    Color(a.red - b.red, a.green - b.green, a.blue - b.blue)
  }

  /** Every channel multiplied by the scalar s (numpy broadcasting of a scalar). */
  function Times(a: Color, s: real): Color
  {
    Color(a.red * s, a.green * s, a.blue * s)
  }

  function Min(x: real, y: real): (m: real)
    ensures m <= x && m <= y && (m == x || m == y)
  {
    if x <= y then x else y
  }

  function Max(x: real, y: real): (m: real)
    ensures x <= m && y <= m && (m == x || m == y)
  {
    if x <= y then y else x
  }

  /** Channel-wise minimum of two colours. */
  function Meet(a: Color, b: Color): Color
  {
    Color(Min(a.red, b.red), Min(a.green, b.green), Min(a.blue, b.blue))
  }

  /** Channel-wise maximum of two colours. */
  function Join(a: Color, b: Color): Color
  {
    Color(Max(a.red, b.red), Max(a.green, b.green), Max(a.blue, b.blue))
  }

  /** Every channel of c lies between the matching channels of lo and hi. */
  predicate Within(c: Color, lo: Color, hi: Color)
  {
    && lo.red <= c.red <= hi.red
    && lo.green <= c.green <= hi.green
    && lo.blue <= c.blue <= hi.blue
  }
}
