# Pythagoras flower

A Dafny model of the `PythagorasFlower` class of `pyflower.py`. The class
is a stateful builder. It holds the two legs (catheti) of a right triangle,
a polygon side count, a stroke colour, a fill colour and an animate flag.
From these it builds an SVG scene graph: the base triangle, then one
*corolla* for every side count from `sides` down to three. A corolla is a
group of three regular polygons ("petals"), one built on each side of the
triangle. The class also keeps a list of frames. Each frame is the triangle
with one corolla alone. Every setter assigns its field and rebuilds.

Modules:

- `Results`: `Option`, `Result` and `Outcome`.
- `SvgScene`: the part of the `svg` library's object tree that the flower builds.
- `PyMath`: the functions of Python's `math` module that the flower calls.
  - `MathLib` is a record of `pi`, `cos`, `sin`, `acos` and `hypot`. The class receives it as its `math` field.
  - `Ceil` is `math.ceil`.
  - `Sound` names the facts of real trigonometry that some lemmas assume.
- `Lists`: `list.reverse()` as `Reversed`, with its laws.
- `Format`: the decimal rendering that the f-string of the corolla id uses.
- `PyFlower`:
  - the constants `Margin`, `MinSides` and `MaxSides` (Python's `MARGIN`, `P_MIN` and `P_MAX`);
  - the specification functions of the drawing (`PolygonPointList`, `BoxLayout`, `Corolla`, `Scene`, the frame sequences);
  - the class `PythagorasFlower`. Its fields mirror those of the Python object, and its methods follow the Python ones statement by statement.
- `FlowerProperties`: lemmas that relate several operations, and one scenario method.

`_draw` is split into three methods:

- `Draw` computes the layout and the triangle, reverses the frame list and assigns the flower.
- `DrawCorollas` is the corolla loop. It appends to the frame field, as the Python loop does.
- `DrawCorolla` is one iteration of that loop.

The split keeps each proof small. Together they run the same statements in the same order as `_draw`.

External inputs are parameters, not modelled code:

- The trigonometric functions are the `math` field, fixed at construction.
- Colours are strings passed through unchanged.
- Serialisation to text is not modelled.

The frame list behaves as the code is written. `flower_corollas` is emptied only by the constructor. Every rebuild appends its frames to the existing list and then reverses the whole list. So right after construction the list holds `sides - 2` frames, ordered by ascending side count. After each later rebuild it holds the new frames in ascending order, followed by everything older in reverse. The docstring of `get_corollas_SVG` (pyflower.py:224) calls the result "the list of the corollas of the Pythagoras flower". Read as one frame per corolla of the current drawing, that is, `sides - 2` entries, it holds only right after construction. This model follows the code.

`ResetSidesScenario` shows both sides of this. It takes a flower with legs 30 and 40 and ten sides, sets the side count to five, then back to ten. The scene ends up equal to that of a freshly built flower. The frame list has 19 entries, against the fresh flower's 8.

## Model

| member | source | states |
|---|---|---|
| `PyMath.Ceil` | pyflower.py:115 | `math.ceil`: the result is the least integer not below `x` (`x <= r < x + 1`) |
| `Lists.ReversedAt` | pyflower.py:206 | after `reverse()`, position `k` holds the element `k` places from the end |
| `Lists.ReversedAppend` | pyflower.py:206 | reversing `a + b` gives `reverse(b) + reverse(a)` |
| `Lists.ReversedTwice` | pyflower.py:206 | reversing twice restores the list |
| `Format.NatToDecimal` | pyflower.py:196 | the f-string rendering of an index: at least one digit, only digits, a single digit exactly for numbers below ten, no leading zero |
| `Format.NatToDecimalValue` | pyflower.py:196 | the digits written for an index, read back in base ten, give the index |
| `Format.NatToDecimalInjective` | pyflower.py:196 | distinct indices render as distinct strings |
| `PyFlower.SoundIsDefined` | pyflower.py:110-111 | under real trigonometry, none of the divisors `sin(pi / n)` for n in [3, 12] is zero, and pi is not zero |
| `PyFlower.FlatPoints` | pyflower.py:72-79 | the coordinate list after `s` steps has `2s + 2` numbers |
| `PyFlower.FlatPointsAt` | pyflower.py:72-79 | coordinates `2k` and `2k + 1` of the list are the vertex reached after `k` sides |
| `PyFlower.PythagorasFlower.PolygonPoints` | pyflower.py:64-80 | the loop produces the origin and then each vertex of the walk with external angle `2 pi / n` over `n - 1` sides, and only the origin when `n - 1` is not positive |
| `PyFlower.PythagorasFlower.CheckedSidesNumber` | pyflower.py:83-94 | the result lies in [3, 12], counts in range are unchanged, and the result is the allowed value nearest the input |
| `PyFlower.PadUp` | pyflower.py:115 | the padded width `w'` satisfies `w + 10 <= w' < w + 20` and `w' - 10` is a multiple of ten |
| `PyFlower.Circumradius` | pyflower.py:110-111 | the radius `r` of the circle around the n-gon on a side `len` solves `r * 2 sin(pi / n) = len` |
| `PyFlower.Altitude` | pyflower.py:108 | the height `r` on the hypotenuse `h` satisfies `r * h = a * b` |
| `PyFlower.BoxLayout` | pyflower.py:103-141 | the hypotenuse is `math.hypot` of the legs; each of the four padded widths lies in [extent + 10, extent + 20) on the margin-aligned grid; the box is `left + right` wide and `under + over` high |
| `PyFlower.NewFramesReversed` | pyflower.py:201-206 | the frames generated from `sides` down to 3, reversed, are the frames by ascending side count |
| `PyFlower.RebuiltFrames` | pyflower.py:59-206 | appending a rebuild's frames to an existing list and reversing it yields the new frames in ascending order, followed by the old list reversed |
| `PyFlower.PythagorasFlower.constructor` | pyflower.py:53-61 | the fields hold the arguments, with the side count clamped; the object is valid; the frame list is exactly the frames of this drawing, ascending |
| `PyFlower.PythagorasFlower.Create` | pyflower.py:40-61 | fails with "Cathetus must be positive not null" exactly when a leg is negative (zero is accepted), before building anything; otherwise returns a fresh valid flower as the constructor describes |
| `PyFlower.PythagorasFlower.Draw` | pyflower.py:96-209 | the inputs are unchanged; the flower is the scene of the inputs; the frame list is the old list plus the new frames, reversed, which equals the new frames ascending followed by the old list reversed; its length grows by `sides - 2` |
| `PyFlower.PythagorasFlower.DrawCorollas` | pyflower.py:155-205 | the loop produces the triangle followed by the corollas for `sides`, ..., 3, and appends the frame of each corolla to the frame list in that order |
| `PyFlower.PythagorasFlower.DrawCorolla` | pyflower.py:157-197 | iteration `c` builds the corolla of `sides - c` sides: its id, fill, the three petals, their points and their animations |
| `PyFlower.PythagorasFlower.SetLeftCathetus` | pyflower.py:277-285 | a negative leg fails and changes nothing, including flower and frames; otherwise only the left leg changes, and the flower and frames are rebuilt |
| `PyFlower.PythagorasFlower.SetRightCathetus` | pyflower.py:287-295 | as for the left leg, on the right leg |
| `PyFlower.PythagorasFlower.SetSides` | pyflower.py:297-303 | only the side count changes, to the clamped value; flower and frames are rebuilt |
| `PyFlower.PythagorasFlower.SetFill` | pyflower.py:305-311 | only the fill changes; flower and frames are rebuilt |
| `PyFlower.PythagorasFlower.SetStroke` | pyflower.py:313-319 | only the stroke changes; flower and frames are rebuilt |
| `PyFlower.PythagorasFlower.GetFlowerSVG` | pyflower.py:211-215 | returns the scene of the current inputs |
| `PyFlower.PythagorasFlower.GetCorollasSVG` | pyflower.py:223-227 | the returned list begins with the frames of the current inputs, by ascending side count |
| `PyFlower.PythagorasFlower.GetLeftCathetus` | pyflower.py:235-240 | the left leg is never negative |
| `PyFlower.PythagorasFlower.GetRightCathetus` | pyflower.py:242-247 | the right leg is never negative |
| `PyFlower.PythagorasFlower.GetHypotenuse` | pyflower.py:249-254 | the hypotenuse is positive and is the one the layout is computed from |
| `PyFlower.PythagorasFlower.GetSides` | pyflower.py:256-261 | the side count lies in [3, 12], and the scene holds `sides - 1` elements |
| `PyFlower.PythagorasFlower.GetFill` | pyflower.py:263-268 | the fill is the one the base triangle is painted with |
| `PyFlower.PythagorasFlower.GetStroke` | pyflower.py:270-275 | the stroke is the one the base triangle is outlined with |
| `FlowerProperties.PolygonPointListShape` | pyflower.py:71-80 | for n >= 1 the list has exactly `2n` numbers; for negative n it is `[0, 0]`; the first point is always the origin |
| `FlowerProperties.PolygonPointStep` | pyflower.py:71-79 | for 1 <= k < n, point `k` is point `k - 1` plus side `k - 1` of length `len`, turned by `(k - 1) 2 pi / n` |
| `FlowerProperties.CheckedSidesNumberStable` | pyflower.py:83-94 | counts below 3 become 3 and counts above 12 become 12; clamping is idempotent and monotonic |
| `FlowerProperties.PadUpLeast` | pyflower.py:115 | the padded width is the least margin-aligned width that fits the extent plus the margin |
| `FlowerProperties.LayoutRadii` | pyflower.py:108-128 | the three circumradii solve `r * 2 sin(pi / n) = side` for the left leg, the right leg and the hypotenuse, and the height times the hypotenuse is the product of the legs |
| `FlowerProperties.LayoutExtremes` | pyflower.py:132-133 | `angle_smaller` is the minimum of the two base angles and `radius_bigger` is the maximum of the two leg radii |
| `FlowerProperties.CorollaStructure` | pyflower.py:178-197 | the corolla of q sides is the group "Corolla {q - 3}" with the flower's fill, holding the left, right and under petals with `2q` coordinates each, built on the left leg, the right leg and the hypotenuse, with the stroke colour and no fill of their own |
| `FlowerProperties.PetalAnimation` | pyflower.py:158-177 | each petal is animated exactly when the flower is; the leg petals skew along x and the under petal along y |
| `FlowerProperties.CorollaIdsDistinct` | pyflower.py:196 | two corollas share an id only when they have the same side count |
| `FlowerProperties.PetalsAtTriangleVertices` | pyflower.py:146-193 | the leg petals start at the right-angle vertex where the triangle is anchored; the under petal starts at the triangle's left vertex |
| `FlowerProperties.SceneStructure` | pyflower.py:155-209 | the scene holds `sides - 1` elements in the box `(width_left + width_right) x (width_under + width_over)`: the triangle first, then element `i` is the corolla of `sides + 1 - i` sides, and the last is the corolla of 3 sides |
| `FlowerProperties.AscendingFramesAt` | pyflower.py:199-206 | there are `sides - 2` frames; frame `j` shows exactly the triangle and the corolla of `j + 3` sides, whose id is "Corolla j", in the drawing's view box |
| `FlowerProperties.FramesMatchScene` | pyflower.py:199-209 | frame `j` shows the scene's triangle and the scene's corolla `j` places from the end, in the same view box |
| `FlowerProperties.RedrawHistory` | pyflower.py:59-206 | after two rebuilds, with frames `b` and then `a` again, a list that started as `a` holds `a`, `a`, then `b` reversed |
| `FlowerProperties.ResetSidesScenario` | pyflower.py:40-61 | a flower with legs 30 and 40 set from 10 sides to 5 and back draws the same scene as a fresh one with 10 sides; its 19 frames are the fresh flower's 8 twice, then the 5-sided drawing's 3 frames reversed |

## Left out

- Floating point: the legs, angles, projections and widths are reals. Python floats, NaN and rounding are not modelled.
- `math.pi`, `cos`, `sin`, `acos` and `hypot` are arbitrary values in a `MathLib`. Their numeric values are not modelled. The lemmas that need real trigonometry assume `Sound`:
  - pi is positive;
  - sin is positive on (0, pi);
  - the hypotenuse of legs that are not both zero is positive.
- Because of this, `hypot(30, 40) == 50` and `hypot(L, R) == sqrt(L² + R²)` are not stated.
- Both legs zero: Python accepts them and then divides by a zero hypotenuse. The model requires `0 < math.hypot(left, right)` of the constructor and the setters instead of modelling the `ZeroDivisionError`.
- Divisions by `pi` and by `sin(pi / n)`: these are required non-zero (`Defined`). `SoundIsDefined` shows that real trigonometry meets this.
- `acos` domain errors are not modelled: there is no `ValueError` for a ratio outside [-1, 1].
- `get_flower_svg` and `get_corollas_svg` (string serialisation through the `svg` library) are not modelled; the scene is an abstract datatype.
- The usage script `pyflower1.py` only writes a file. It is I/O and is not part of this model.
- A side count that is not an `int` is not modelled. One below 3 or above 12 is clamped to the int 3 or 12. Any other makes `range` raise `TypeError` at pyflower.py:157; through `set_sides`, line 302 has then already assigned the field, while `flower` and `flower_corollas` keep their old values.
- Colours are strings and are not validated.
- The rotation angles of the petals are kept as the expressions of the code. No geometric claim is made about them.
- PyFlower.BoxLayout: its contract states the padding and the box sums. The radius, altitude and min/max relations are stated separately in `LayoutRadii` and `LayoutExtremes`. None of these claims that the box really contains the petals, because that depends on real trigonometry.
- PyFlower.PythagorasFlower.GetCorollasSVG: states only that the list begins with the current frames. `Draw` states how the rest of the list arises.
- PyFlower.PythagorasFlower.PolygonPoints: requires `sidesNumber != 0`. Python raises `ZeroDivisionError` at pyflower.py:71 for a zero side count; that error path is not modelled. The class only calls it with clamped counts in [3, 12].
- PyFlower.PythagorasFlower.GetCorollasSVG: Python returns the list object `flower_corollas` itself, and later rebuilds append to it and reverse it in place, so a list obtained earlier changes under its holder. The model returns the sequence as a value, so this aliasing is not captured.
