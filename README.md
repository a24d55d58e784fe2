# RYB to RGB by trilinear interpolation

This project models `Day2/ryb.py`. The script converts a red-yellow-blue colour
coordinate `(r, y, b)`, each nominally in `[0, 255]`, into an RGB colour. It
interpolates trilinearly over a fixed 2×2×2 lattice of eight corner colours:
white, red, yellow, green, blue, purple, orange and black. The corners come from
"Paint Inspired Color Compositing" by N. Gossett and B. Chen. The interpolation
can be bent by a blending function `func` with `func(0) = 0` and `func(1) = 1`.

The model has four modules:

- `Colors` (`colors.dfy`): a colour is three exact `real` channels. numpy's
  element-wise arithmetic on arrays of three values becomes `Plus`, `Minus` and
  `Times`. `Meet`, `Join` and `Within` describe channel-wise bounds.
- `Ryb` (`ryb.dfy`): the lattice `C0` is a datatype of eight corners, indexed
  `[r][y][b]` by `Lattice.At`. There are two tables. `Paletton` is the
  paletton.com table (line 19), which the script overwrites. `Paper` is the
  paper's table times 255 (line 30), and it is the one in use (`Active`).
  `Weight` is `weight`: it blends `c0 + (c1 - c0) * func(t / 255)` channel by
  channel. `RybToRgb` is `ryb_to_rgb`. It blends along b for each (r-bit, y-bit)
  pair (the script's `C1`), then along y (`C2`), then along r (`C3`). Its
  `func` defaults to `Identity`, as the Python default `lambda t: t` does.
  `Smoothstep` is the paper's cubic blend `t*t*(3-2t)`, found on line 58.
- `RybProperties` (`ryb_properties.dfy`): the properties. `CornerSum` is an
  independent reference. It is the textbook trilinear sum, in which each corner
  is weighted by the product of its three axis weights. `RybToRgb` is proved
  equal to it for every blending function. All five other nesting orders of the
  three axes (`RybToRgbOrderRYB`, `RybToRgbOrderRBY`, `RybToRgbOrderYRB`,
  `RybToRgbOrderYBR` and `RybToRgbOrderBRY`) are proved equal to the script's
  order, again for every blending function.
- `RybFormula` (`formula.dfy`): the value of what the script prints on lines
  61-63, i.e. the identity-blend conversion expanded into one polynomial in r, y
  and b per channel. `Expanded` gives the coefficients of each polynomial in
  closed form, and `ExpandedAgrees` proves that evaluating them gives
  `RybToRgb`.

Channel values are exact reals. Python's `from __future__ import division` makes
`t/255` a true division, and here it is exact real division.

The paper's black `(0.2, 0.094, 0)` scales to `(51, 23.97, 0)`, with no rounding
(`PaperWhiteAndBlack`).

## Model

| member | source | states |
|---|---|---|
| `Ryb.Lattice.At` | Day2/ryb.py:19-30 | the corner table `C0[i][j][k]` indexed by r-bit, y-bit, b-bit; the constants `Paletton` (lines 11-19) and `Paper`/`Active` (lines 22-30) fill it; its properties are in `CornerReproduced`, `PaperWhiteAndBlack`, `PaperRed`, `PaperYellow`, `PaperBlue`, `PaperOrange` and `PalettonWhiteAndBlack` |
| `Ryb.Weight` | Day2/ryb.py:33-39 | when the blend factor `func(t/255)` is 0 the result is `C[0]`, when it is 1 the result is `C[1]`; further properties in `WeightAtStart`, `WeightAtEnd`, `WeightWithin`, `WeightBetweenEndpoints` and `WeightSecondDifference` |
| `Ryb.RybToRgb` | Day2/ryb.py:41-52 | blends b, then y, then r, with `func` defaulting to the identity; its properties are in `RybToRgbIsCornerSum`, the five `Order…Agrees` lemmas, `CornerReproduced`, `StraightLines`, the three `SecondDifference…` lemmas and `WithinCorners` |
| `Ryb.Smoothstep` | Day2/ryb.py:58 | the paper's blend `t*t*(3-2t)`; its properties are in `SmoothstepEndpoints`, `SmoothstepRange`, `SmoothstepCornerReproduced` and `SmoothstepWithinCorners` |
| `RybFormula.Expanded` | Day2/ryb.py:54-63 | the coefficients of the three expanded channel polynomials; `ExpandedAgrees` proves they evaluate to `RybToRgb` |
| `RybProperties.WeightAtStart` | Day2/ryb.py:33-39 | if `func(0) = 0`, then weight at `t = 0` is exactly `C[0]` |
| `RybProperties.WeightAtEnd` | Day2/ryb.py:33-39 | if `func(1) = 1`, then weight at `t = 255` is exactly `C[1]` |
| `RybProperties.WeightWithin` | Day2/ryb.py:35-39 | if the blend factor `func(t/255)` is in [0, 1], weight stays, channel by channel, inside any box holding both endpoints |
| `RybProperties.WeightBetweenEndpoints` | Day2/ryb.py:35-39 | with the identity blend and `0 <= t <= 255`, every channel of weight lies between the matching channels of `C[0]` and `C[1]` |
| `RybProperties.WeightSecondDifference` | Day2/ryb.py:39 | with the identity blend, weight is affine in `t`: `w(t0+2d) + w(t0) = 2 w(t0+d)` |
| `RybProperties.RybToRgbIsCornerSum` | Day2/ryb.py:41-52 | for every `func`, ryb_to_rgb equals the trilinear sum of the eight corners, with weights `func(r/255)`, `func(y/255)` and `func(b/255)` |
| `RybProperties.OrderRYBAgrees` | Day2/ryb.py:46-50 | interpolating r, then y, then b gives the same colour as the code's b, y, r, for every `func` |
| `RybProperties.OrderRBYAgrees` | Day2/ryb.py:46-50 | interpolating r, then b, then y gives the same colour as the code's order, for every `func` |
| `RybProperties.OrderYRBAgrees` | Day2/ryb.py:46-50 | interpolating y, then r, then b gives the same colour as the code's order, for every `func` |
| `RybProperties.OrderYBRAgrees` | Day2/ryb.py:46-50 | interpolating y, then b, then r gives the same colour as the code's order, for every `func` |
| `RybProperties.OrderBRYAgrees` | Day2/ryb.py:46-50 | interpolating b, then r, then y gives the same colour as the code's order, for every `func` |
| `RybProperties.CornerReproduced` | Day2/ryb.py:41-52 | at every corner (each of r, y and b is 0 or 255), ryb_to_rgb returns exactly `C0[r/255][y/255][b/255]`, for any `func` with `func(0) = 0` and `func(1) = 1` |
| `RybProperties.PaperWhiteAndBlack` | Day2/ryb.py:22-30 | with the active paper table, `(0,0,0)` gives white `(255,255,255)` and `(255,255,255)` gives the black corner `(51, 23.97, 0)` |
| `RybProperties.PaperRed` | Day2/ryb.py:22-30 | with the paper table, `(255,0,0)` gives the red corner `(255,0,0)` |
| `RybProperties.PaperYellow` | Day2/ryb.py:22-30 | with the paper table, `(0,255,0)` gives the yellow corner `(255,255,0)` |
| `RybProperties.PaperBlue` | Day2/ryb.py:22-30 | with the paper table, `(0,0,255)` gives the blue corner `(41.565, 95.115, 153)` |
| `RybProperties.PaperOrange` | Day2/ryb.py:22-30 | with the paper table, `(255,255,0)` gives the orange corner `(255, 127.5, 0)` |
| `RybProperties.PalettonWhiteAndBlack` | Day2/ryb.py:10-19 | with the shadowed paletton table, `(0,0,0)` gives white and `(255,255,255)` gives black `(0,0,0)` |
| `RybProperties.StraightLines` | Day2/ryb.py:41-50 | if `func(0) = 0` and `func(1) = 1`, then for fixed values of the other two coordinates, ryb_to_rgb is the same `func` blend of its values at 0 and 255 along that axis; this holds along r, along y and along b |
| `RybProperties.SecondDifferenceR` | Day2/ryb.py:41-50 | with the identity blend, `f(r0+2d) - 2 f(r0+d) + f(r0) = 0` along r |
| `RybProperties.SecondDifferenceY` | Day2/ryb.py:41-50 | with the identity blend, the second difference along y is zero |
| `RybProperties.SecondDifferenceB` | Day2/ryb.py:41-50 | with the identity blend, the second difference along b is zero |
| `RybProperties.WithinCorners` | Day2/ryb.py:41-52 | if each axis's blend factor is in [0, 1], every output channel lies between that channel's minimum and maximum over the eight corners |
| `RybProperties.IdentityWithinCorners` | Day2/ryb.py:41-52 | with the identity blend and r, y, b in [0, 255], every output channel lies within the corners' range |
| `RybProperties.SmoothstepEndpoints` | Day2/ryb.py:58 | the paper's blend `t*t*(3-2t)` meets the documented contract `func(0) = 0` and `func(1) = 1` |
| `RybProperties.SmoothstepRange` | Day2/ryb.py:58 | the paper's blend maps [0, 1] into [0, 1] |
| `RybProperties.SmoothstepCornerReproduced` | Day2/ryb.py:58 | with the paper's blend, every corner is still reproduced exactly |
| `RybProperties.SmoothstepWithinCorners` | Day2/ryb.py:58 | with the paper's blend and r, y, b in [0, 255], the output stays within the corners' range |
| `RybFormula.ExpandedAgrees` | Day2/ryb.py:54-63 | evaluating the expanded per-channel polynomials at any `(r, y, b)` gives exactly ryb_to_rgb with the identity blend |

## Left out

- Symbolic algebra (sympy's `Symbol` and `expand`, lines 54-59) is not modelled. The model computes over concrete reals. `RybFormula` gives the coefficients of the expanded polynomial in closed form instead of deriving them symbolically.
- Printing the three `floor <|` lines (lines 61-63) is left out, because it is output formatting. The floor it asks for is applied by the consumer of the printed text, not by the script.
- numpy arrays and broadcasting are not modelled as such. They become explicit per-channel arithmetic on three-channel colours and a datatype of eight corners. `weight`'s pair argument `C` becomes two colour parameters.
- IEEE double rounding is not modelled. All arithmetic is exact real arithmetic, so values such as `0.163 * 255` are exact.
- The unused `floor` import (line 7) is left out.
- Inputs outside [0, 255] are accepted, as in the script. Only the bound lemmas ask for the range.
- The script's ability to run the same routine on numbers or on symbols is not modelled as a generic arithmetic interface. Only the numeric instance exists.
