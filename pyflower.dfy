/** The Pythagoras flower: a right triangle with a regular polygon built on
    each of its sides, repeated for every side count from the configured one
    down to three, drawn as an SVG scene graph. */
module PyFlower {
  import opened Results
  import opened PyMath
  import opened SvgScene
  import opened Lists
  import opened Format

  /** Margin added on every side of the view box. */
  const Margin: int := 10
  /** Fewest sides a petal polygon may have. */
  const MinSides: int := 3
  /** Most sides a petal polygon may have. */
  const MaxSides: int := 12

  /** The exception the flower raises. */
  datatype Error = Exception(message: string)

  const CathetusError := Exception("Cathetus must be positive not null")

  /** The inputs a drawing is computed from. */
  datatype Params = Params(
    left: real,
    right: real,
    sides: int,
    stroke: Colour,
    fill: Colour,
    animate: bool)

  function Distance(a: int, b: int): nat {
    if a <= b then b - a else a - b
  }

  // ---------------------------------------------------------------------
  // Well-definedness of the geometry

  /** sin(pi / n), the divisor in every circumradius. */
  function SinPiOver(m: MathLib, n: int): real
    requires n != 0
  {
    m.sin(m.pi / n as real)
  }

  /** Every division the drawing performs for a clamped side count has a
      non-zero divisor, apart from the hypotenuse, which `Buildable` covers. */
  ghost predicate Defined(m: MathLib) {
    && m.pi != 0.0
    && forall n :: MinSides <= n <= MaxSides ==> SinPiOver(m, n) != 0.0
  }

  /** Real trigonometry meets `Defined`: pi / n lies strictly between 0 and pi. */
  lemma SoundIsDefined(m: MathLib)
    requires Sound(m)
    ensures Defined(m)
  {
  }

  /** The state a flower is drawn from: valid legs, a clamped side count and
      a positive hypotenuse (two zero legs would divide by zero). */
  ghost predicate Buildable(m: MathLib, p: Params) {
    && Defined(m)
    && 0.0 <= p.left && 0.0 <= p.right
    && MinSides <= p.sides <= MaxSides
    && 0.0 < m.hypot(p.left, p.right)
  }

  // ---------------------------------------------------------------------
  // Vertices of a regular polygon

  /** The angle between successive sides of a regular polygon with `n` sides. */
  function ExternalAngle(m: MathLib, n: int): real
    requires n != 0
  {
    2.0 * m.pi / n as real
  }

  /** Side `k` of the polygon as a displacement. */
  function Step(m: MathLib, len: real, angle: real, k: nat): (real, real) {
    (len * m.cos(angle * k as real), len * m.sin(angle * k as real))
  }

  /** The vertex reached after walking `k` sides from the origin. */
  function Vertex(m: MathLib, len: real, angle: real, k: nat): (real, real)
    decreases k
  {
    if k == 0 then (0.0, 0.0)
    else
      var v := Vertex(m, len, angle, k - 1);
      var d := Step(m, len, angle, k - 1);
      (v.0 + d.0, v.1 + d.1)
  }

  /** The flat coordinate list of vertices 0 .. s. */
  function FlatPoints(m: MathLib, len: real, angle: real, s: nat): (r: seq<real>)
    ensures |r| == 2 * s + 2
    decreases s
  {
    if s == 0 then [0.0, 0.0]
    else FlatPoints(m, len, angle, s - 1) + [Vertex(m, len, angle, s).0, Vertex(m, len, angle, s).1]
  }

  /** Coordinates 2k and 2k + 1 of the flat list are vertex `k`. */
  lemma {:induction false} FlatPointsAt(m: MathLib, len: real, angle: real, s: nat, k: nat)
    requires k <= s
    ensures FlatPoints(m, len, angle, s)[2 * k] == Vertex(m, len, angle, k).0
    ensures FlatPoints(m, len, angle, s)[2 * k + 1] == Vertex(m, len, angle, k).1
    decreases s
  {
    if k < s {
      FlatPointsAt(m, len, angle, s - 1, k);
    }
  }

  /** One more side of the walk leads from vertex `s` to vertex `s + 1`. */
  lemma VertexStep(m: MathLib, len: real, angle: real, s: nat)
    ensures Vertex(m, len, angle, s + 1).0 == Vertex(m, len, angle, s).0 + Step(m, len, angle, s).0
    ensures Vertex(m, len, angle, s + 1).1 == Vertex(m, len, angle, s).1 + Step(m, len, angle, s).1
  {
  }

  /** One more side of the walk appends the two coordinates of the vertex it reaches. */
  lemma FlatPointsStep(m: MathLib, len: real, angle: real, s: nat)
    ensures FlatPoints(m, len, angle, s + 1)
         == FlatPoints(m, len, angle, s) + [Vertex(m, len, angle, s + 1).0] + [Vertex(m, len, angle, s + 1).1]
  {
  }

  /** The coordinate list of a regular polygon with sides of length `len`:
      the origin and the vertices reached after each of its first n - 1 sides
      (none when n is negative). */
  function PolygonPointList(m: MathLib, len: real, n: int): seq<real>
    requires n != 0
  {
    FlatPoints(m, len, ExternalAngle(m, n), if 1 <= n then n - 1 else 0)
  }

  /** Point `k` of a flat coordinate list. */
  function PointAt(points: seq<real>, k: nat): (real, real)
    requires 2 * k + 1 < |points|
  {
    (points[2 * k], points[2 * k + 1])
  }

  // ---------------------------------------------------------------------
  // Box sizing

  /** An extent rounded up to a multiple of ten, plus the margin. */
  function PadUp(w: real): (r: int)
    ensures w + Margin as real <= r as real < w + (Margin + 10) as real
    ensures (r - Margin) % 10 == 0
  {
    Margin + Ceil(w / 10.0) * 10
  }

  /** The quantities the drawing derives from the legs and the side count. */
  datatype Layout = Layout(
    hypotenuse: real,
    leftAngle: real,
    rightAngle: real,
    leftProjection: real,
    rightProjection: real,
    height: real,
    radiusLeft: real,
    radiusRight: real,
    radiusHypotenuse: real,
    angleSmaller: real,
    radiusBigger: real,
    extentLeft: real,
    extentRight: real,
    extentUnder: real,
    extentOver: real,
    widthLeft: int,
    widthRight: int,
    widthUnder: int,
    widthOver: int,
    boxWidth: int,
    boxHeight: int)

  /** The radius of the circle through the vertices of a regular polygon
      with `n` sides of length `len`. */
  function Circumradius(m: MathLib, len: real, n: int): (r: real)
    requires n != 0 && SinPiOver(m, n) != 0.0
    ensures r * (2.0 * SinPiOver(m, n)) == len
  {
    len / (2.0 * SinPiOver(m, n))
  }

  /** The altitude onto the hypotenuse `h` of a right triangle with legs `a`, `b`. */
  function Altitude(a: real, b: real, h: real): (r: real)
    requires h != 0.0
    ensures r * h == a * b
  {
    a * b / h
  }

  /** Size of the padded box side in the direction of a leg petal. */
  function LegExtent(m: MathLib, radius: real, piOver: real, angle: real): real {
    radius + radius * m.sin(piOver + angle)
  }

  /** The trigonometric base and the padded extents of the view box. */
  function BoxLayout(m: MathLib, p: Params): (g: Layout)
    requires Buildable(m, p)
    ensures g.hypotenuse == m.hypot(p.left, p.right)
    ensures g.extentLeft + 10.0 <= g.widthLeft as real < g.extentLeft + 20.0 && (g.widthLeft - 10) % 10 == 0
    ensures g.extentRight + 10.0 <= g.widthRight as real < g.extentRight + 20.0 && (g.widthRight - 10) % 10 == 0
    ensures g.extentUnder + 10.0 <= g.widthUnder as real < g.extentUnder + 20.0 && (g.widthUnder - 10) % 10 == 0
    ensures g.extentOver + 10.0 <= g.widthOver as real < g.extentOver + 20.0 && (g.widthOver - 10) % 10 == 0
    ensures g.boxWidth == g.widthLeft + g.widthRight
    ensures g.boxHeight == g.widthUnder + g.widthOver
  {
    var h := m.hypot(p.left, p.right);
    var leftAngle := m.acos(p.left / h);
    var rightAngle := m.acos(p.right / h);
    var leftProjection := p.left * m.cos(leftAngle);
    var rightProjection := p.right * m.cos(rightAngle);
    var height := Altitude(p.left, p.right, h);
    var piOver := m.pi / p.sides as real;
    var radius1 := Circumradius(m, p.left, p.sides);
    var extentLeft := LegExtent(m, radius1, piOver, leftAngle);
    var radius2 := Circumradius(m, p.right, p.sides);
    var extentRight := LegExtent(m, radius2, piOver, rightAngle);
    var radiusH := Circumradius(m, h, p.sides);
    var extentUnder := radiusH + radiusH * m.cos(piOver) + height;
    var angleSmaller := if rightAngle < leftAngle then rightAngle else leftAngle;
    var radiusBigger := if radius2 > radius1 then radius2 else radius1;
    var extentOver := radiusBigger + radiusBigger * m.cos(piOver - angleSmaller) - height;
    var widthLeft := PadUp(extentLeft);
    var widthRight := PadUp(extentRight);
    var widthUnder := PadUp(extentUnder);
    var widthOver := PadUp(extentOver);
    Layout(
      h, leftAngle, rightAngle, leftProjection, rightProjection, height,
      radius1, radius2, radiusH, angleSmaller, radiusBigger,
      extentLeft, extentRight, extentUnder, extentOver,
      widthLeft, widthRight, widthUnder, widthOver,
      widthLeft + widthRight, widthUnder + widthOver)
  }

  // ---------------------------------------------------------------------
  // Scene elements

  /** The skew oscillation attached to an animated petal. */
  function Skew(kind: string): AnimateTransform {
    AnimateTransform("transform", kind, "-2;2;-2", "0s", "2s", "indefinite", "sum")
  }

  /** The animation children of a petal: one skew when animating, none otherwise. */
  function SkewAnimations(animate: bool, kind: string): Option<seq<AnimateTransform>> {
    if animate then Some([Skew(kind)]) else None
  }

  /** The translation that puts the right-angle vertex at (widthLeft, widthOver). */
  function Anchor(g: Layout): Transform {
    Translate(g.widthLeft as real, g.widthOver as real)
  }

  /** The base triangle. */
  function Triangle(p: Params, g: Layout): Element {
    Polygon(
      [0.0, 0.0, -g.leftProjection, g.height, g.rightProjection, g.height],
      Some(p.fill), p.stroke, Some(1), [Anchor(g)], None)
  }

  /** The petal built on the left cathetus. */
  function LeftPetal(m: MathLib, p: Params, g: Layout, points: seq<real>, animations: Option<seq<AnimateTransform>>): Element
    requires m.pi != 0.0
  {
    Polygon(points, None, p.stroke, None, [Anchor(g), Rotate(180.0 - 180.0 / m.pi * g.leftAngle)], animations)
  }

  /** The petal built on the right cathetus, mirrored vertically. */
  function RightPetal(m: MathLib, p: Params, g: Layout, points: seq<real>, animations: Option<seq<AnimateTransform>>): Element
    requires m.pi != 0.0
  {
    Polygon(points, None, p.stroke, None, [Anchor(g), Scale(1.0, -1.0), Rotate(-180.0 / m.pi * g.rightAngle)], animations)
  }

  /** The petal built on the hypotenuse, anchored at its left end. */
  function UnderPetal(p: Params, g: Layout, points: seq<real>, animations: Option<seq<AnimateTransform>>): Element {
    Polygon(points, None, p.stroke, None,
      [Translate(g.widthLeft as real - g.leftProjection, g.widthOver as real + g.height)], animations)
  }

  /** The group id of the corolla with index `index`. */
  function CorollaId(index: nat): string {
    "Corolla " + NatToDecimal(index)
  }

  /** The corolla whose three petals have `q` sides, placed by layout `g`. */
  function Corolla(m: MathLib, p: Params, g: Layout, q: int): Element
    requires m.pi != 0.0 && MinSides <= q
  {
    G(CorollaId(q - MinSides), Some(p.fill), [
      LeftPetal(m, p, g, PolygonPointList(m, p.left, q), SkewAnimations(p.animate, "skewX")),
      RightPetal(m, p, g, PolygonPointList(m, p.right, q), SkewAnimations(p.animate, "skewX")),
      UnderPetal(p, g, PolygonPointList(m, g.hypotenuse, q), SkewAnimations(p.animate, "skewY"))])
  }

  lemma PrefixStep<T>(s: seq<T>, c: nat)
    requires c < |s|
    ensures s[..c + 1] == s[..c] + [s[c]]
  {
  }

  function ViewBox(g: Layout): Option<ViewBoxSpec> {
    Some(ViewBoxSpec(0, 0, g.boxWidth, g.boxHeight))
  }

  /** How many corollas a drawing has: one per side count sides, ..., 3. */
  function CorollaCount(p: Params): nat
    requires MinSides <= p.sides
  {
    p.sides - MinSides + 1
  }

  /** The corollas in the order they are generated, largest side count first. */
  function Corollas(m: MathLib, p: Params, g: Layout): seq<Element>
    requires m.pi != 0.0 && MinSides <= p.sides
  {
    seq(CorollaCount(p), c requires 0 <= c < CorollaCount(p) => Corolla(m, p, g, p.sides - c))
  }

  /** The whole flower: the triangle, then every corolla overlaid. */
  function Scene(m: MathLib, p: Params): Svg
    requires Buildable(m, p)
  {
    var g := BoxLayout(m, p);
    Svg(ViewBox(g), [Triangle(p, g)] + Corollas(m, p, g))
  }

  /** The drawing of the triangle with the single corolla of side count `q`. */
  function Frame(m: MathLib, p: Params, g: Layout, q: int): Svg
    requires m.pi != 0.0 && MinSides <= q
  {
    Svg(ViewBox(g), [Triangle(p, g), Corolla(m, p, g, q)])
  }

  /** The frames one rebuild appends, in generation order (largest first). */
  function NewFrames(m: MathLib, p: Params, g: Layout): seq<Svg>
    requires m.pi != 0.0 && MinSides <= p.sides
  {
    seq(CorollaCount(p), c requires 0 <= c < CorollaCount(p) => Frame(m, p, g, p.sides - c))
  }

  /** The frames of one drawing ordered by side count 3, 4, ..., sides. */
  function AscendingFrames(m: MathLib, p: Params, g: Layout): seq<Svg>
    requires m.pi != 0.0 && MinSides <= p.sides
  {
    seq(CorollaCount(p), j requires 0 <= j < CorollaCount(p) => Frame(m, p, g, MinSides + j))
  }

  /** The frames of the drawing of `p`, by ascending side count. */
  function DrawnFrames(m: MathLib, p: Params): seq<Svg>
    requires Buildable(m, p)
  {
    AscendingFrames(m, p, BoxLayout(m, p))
  }

  /** Reversing the generated frames orders them by ascending side count. */
  lemma NewFramesReversed(m: MathLib, p: Params, g: Layout)
    requires m.pi != 0.0 && MinSides <= p.sides
    ensures Reversed(NewFrames(m, p, g)) == AscendingFrames(m, p, g)
  {
    var s := NewFrames(m, p, g);
    forall j | 0 <= j < |s|
      ensures Reversed(s)[j] == AscendingFrames(m, p, g)[j]
    {
      ReversedAt(s, j);
    }
  }

  /** A rebuild that appends to an existing frame list and reverses all of it
      leaves the new frames in ascending order in front of the old list reversed. */
  lemma RebuiltFrames(m: MathLib, p: Params, g: Layout, before: seq<Svg>)
    requires m.pi != 0.0 && MinSides <= p.sides
    ensures Reversed(before + NewFrames(m, p, g)) == AscendingFrames(m, p, g) + Reversed(before)
  {
    ReversedAppend(before, NewFrames(m, p, g));
    NewFramesReversed(m, p, g);
  }

  // ---------------------------------------------------------------------
  // The builder

  class PythagorasFlower {
    /** The `math` module the drawing calls. */
    const math: MathLib
    var leftCathetus: real
    var rightCathetus: real
    var sides: int
    var stroke: Colour
    var fill: Colour
    var animate: bool
    /** Every frame built since construction: the list is never cleared. */
    var flowerCorollas: seq<Svg>
    var flower: Svg

    function Inputs(): Params
      reads this
    {
      Params(leftCathetus, rightCathetus, sides, stroke, fill, animate)
    }

    /** The inputs are valid, the flower is the drawing of them, and the frame
        list starts with their frames in ascending order. */
    ghost predicate Valid()
      reads this
    {
      && Buildable(math, Inputs())
      && flower == Scene(math, Inputs())
      && DrawnFrames(math, Inputs()) <= flowerCorollas
    }

    /** Builds a flower from legs that passed the sign check. */
    constructor (m: MathLib, left: real := 30.0, right: real := 40.0, sides: int := 3,
                 stroke: Colour := "black", fill: Colour := "white", animate: bool := false)
      requires 0.0 <= left && 0.0 <= right
      requires Defined(m) && 0.0 < m.hypot(left, right)
      ensures Valid()
      ensures math == m
      ensures Inputs() == Params(left, right, CheckedSidesNumber(sides), stroke, fill, animate)
      ensures flowerCorollas == DrawnFrames(m, Inputs())
    {
      math := m;
      leftCathetus := left;
      rightCathetus := right;
      this.sides := CheckedSidesNumber(sides);
      this.stroke := stroke;
      this.fill := fill;
      this.animate := animate;
      flowerCorollas := [];
      flower := EmptySvg;
      new;
      Draw();
      assert DrawnFrames(m, Inputs()) + [] == DrawnFrames(m, Inputs());
    }

    /** Construction with the sign check: a negative leg raises before
        anything is built. */
    static method Create(m: MathLib, left: real := 30.0, right: real := 40.0, sides: int := 3,
                         stroke: Colour := "black", fill: Colour := "white", animate: bool := false)
      returns (r: Result<PythagorasFlower, Error>)
      requires Defined(m)
      requires left < 0.0 || right < 0.0 || 0.0 < m.hypot(left, right)
      ensures r.Failure? <==> left < 0.0 || right < 0.0
      ensures r.Failure? ==> r.error == CathetusError
      ensures r.Success? ==> && fresh(r.value) && r.value.Valid() && r.value.math == m
                             && r.value.Inputs() == Params(left, right, CheckedSidesNumber(sides), stroke, fill, animate)
                             && r.value.flowerCorollas == DrawnFrames(m, r.value.Inputs())
    {
      if left < 0.0 || right < 0.0 {
        return Failure(CathetusError);
      }
      var f := new PythagorasFlower(m, left, right, sides, stroke, fill, animate);
      r := Success(f);
    }

    /** The coordinates of a regular polygon with `sidesNumber` sides of
        length `sideLength`, starting at the origin. */
    static method PolygonPoints(m: MathLib, sideLength: real, sidesNumber: int) returns (points: seq<real>)
      requires sidesNumber != 0
      ensures points == PolygonPointList(m, sideLength, sidesNumber)
    {
      var externalAngle := 2.0 * m.pi / sidesNumber as real;
      points := [0.0, 0.0];
      var x := 0.0;
      var y := 0.0;
      // range(sidesNumber - 1) is empty when its bound is not positive
      var count := if sidesNumber - 1 < 0 then 0 else sidesNumber - 1;
      for s := 0 to count
        invariant points == FlatPoints(m, sideLength, externalAngle, s)
        invariant (x, y) == Vertex(m, sideLength, externalAngle, s)
      {
        VertexStep(m, sideLength, externalAngle, s);
        FlatPointsStep(m, sideLength, externalAngle, s);
        var side := Step(m, sideLength, externalAngle, s);
        x := x + side.0;
        y := y + side.1;
        points := points + [x];
        points := points + [y];
      }
    }

    /** The side count clamped to [MinSides, MaxSides]: the nearest allowed value. */
    static function CheckedSidesNumber(sidesNumber: int): (r: int)
      ensures MinSides <= r <= MaxSides
      ensures MinSides <= sidesNumber <= MaxSides ==> r == sidesNumber
      ensures forall k :: MinSides <= k <= MaxSides ==> Distance(r, sidesNumber) <= Distance(k, sidesNumber)
    {
      if sidesNumber < MinSides then MinSides
      else if sidesNumber > MaxSides then MaxSides
      else sidesNumber
    }

    /** Rebuilds the flower from the current inputs and adds their frames to
        the frame list, which is then reversed as a whole. */
    method Draw()
      requires Buildable(math, Inputs())
      modifies this
      ensures Inputs() == old(Inputs())
      ensures Valid()
      ensures flowerCorollas == Reversed(old(flowerCorollas) + NewFrames(math, Inputs(), BoxLayout(math, Inputs())))
      ensures flowerCorollas == DrawnFrames(math, Inputs()) + Reversed(old(flowerCorollas))
      ensures |flowerCorollas| == |old(flowerCorollas)| + sides - MinSides + 1
    {
      var p := Inputs();
      var g := BoxLayout(math, p);
      var triangle := Triangle(p, g);
      var elements := DrawCorollas(g, triangle);
      flowerCorollas := Reversed(flowerCorollas);
      flower := Svg(ViewBox(g), elements);
      RebuiltFrames(math, p, g, old(flowerCorollas));
    }

    /** The corolla loop of a drawing: one corolla per side count, from
        `sides` down to three, each also appended to the frame list as a
        drawing of the triangle with that corolla alone. */
    method DrawCorollas(g: Layout, triangle: Element) returns (elements: seq<Element>)
      requires math.pi != 0.0 && MinSides <= sides
      requires triangle == Triangle(Inputs(), g)
      modifies this`flowerCorollas
      ensures elements == [triangle] + Corollas(math, Inputs(), g)
      ensures flowerCorollas == old(flowerCorollas) + NewFrames(math, Inputs(), g)
    {
      var p := Inputs();
      elements := [triangle];
      for c := 0 to sides - MinSides + 1
        invariant elements == [triangle] + Corollas(math, p, g)[..c]
        invariant flowerCorollas == old(flowerCorollas) + NewFrames(math, p, g)[..c]
      {
        var corolla := DrawCorolla(g, c);
        assert Corollas(math, p, g)[c] == corolla;
        assert NewFrames(math, p, g)[c] == Frame(math, p, g, sides - c);
        PrefixStep(Corollas(math, p, g), c);
        PrefixStep(NewFrames(math, p, g), c);
        elements := elements + [corolla];
        flowerCorollas := flowerCorollas + [Svg(ViewBox(g), [triangle, corolla])];
      }
      assert Corollas(math, p, g)[..CorollaCount(p)] == Corollas(math, p, g);
      assert NewFrames(math, p, g)[..CorollaCount(p)] == NewFrames(math, p, g);
    }

    /** Iteration `c` of the corolla loop: the three petals with
        `sides - c` sides and the group holding them. */
    method DrawCorolla(g: Layout, c: int) returns (corolla: Element)
      requires math.pi != 0.0 && 0 <= c <= sides - MinSides
      ensures corolla == Corolla(math, Inputs(), g, sides - c)
    {
      var q := sides - c;
      var animationsX: Option<seq<AnimateTransform>>;
      var animationsY: Option<seq<AnimateTransform>>;
      if animate {
        animationsX := Some([Skew("skewX")]);
        animationsY := Some([Skew("skewY")]);
      } else {
        animationsX := None;
        animationsY := None;
      }
      var p := Inputs();
      var leftPoints := PolygonPoints(math, leftCathetus, q);
      var rightPoints := PolygonPoints(math, rightCathetus, q);
      var underPoints := PolygonPoints(math, g.hypotenuse, q);
      corolla := G(CorollaId(sides - c - MinSides), Some(fill), [
        LeftPetal(math, p, g, leftPoints, animationsX),
        RightPetal(math, p, g, rightPoints, animationsX),
        UnderPetal(p, g, underPoints, animationsY)]);
    }

    /** Sets the left cathetus, checking its sign before assigning anything. */
    method SetLeftCathetus(left: real) returns (r: Outcome<Error>)
      requires Valid()
      requires left < 0.0 || 0.0 < math.hypot(left, rightCathetus)
      modifies this
      ensures Valid()
      ensures r == if left < 0.0 then Fail(CathetusError) else Pass
      ensures r.Fail? ==> unchanged(this)
      ensures r.Pass? ==> Inputs() == old(Inputs()).(left := left)
      ensures r.Pass? ==> flowerCorollas == DrawnFrames(math, Inputs()) + Reversed(old(flowerCorollas))
    {
      if left < 0.0 {
        return Fail(CathetusError);
      }
      leftCathetus := left;
      Draw();
      r := Pass;
    }

    /** Sets the right cathetus, checking its sign before assigning anything. */
    method SetRightCathetus(right: real) returns (r: Outcome<Error>)
      requires Valid()
      requires right < 0.0 || 0.0 < math.hypot(leftCathetus, right)
      modifies this
      ensures Valid()
      ensures r == if right < 0.0 then Fail(CathetusError) else Pass
      ensures r.Fail? ==> unchanged(this)
      ensures r.Pass? ==> Inputs() == old(Inputs()).(right := right)
      ensures r.Pass? ==> flowerCorollas == DrawnFrames(math, Inputs()) + Reversed(old(flowerCorollas))
    {
      if right < 0.0 {
        return Fail(CathetusError);
      }
      rightCathetus := right;
      Draw();
      r := Pass;
    }

    /** Sets the side count, clamped into range. */
    method SetSides(sides: int := 3)
      requires Valid()
      modifies this
      ensures Valid()
      ensures Inputs() == old(Inputs()).(sides := CheckedSidesNumber(sides))
      ensures flowerCorollas == DrawnFrames(math, Inputs()) + Reversed(old(flowerCorollas))
    {
      this.sides := CheckedSidesNumber(sides);
      Draw();
    }

    method SetFill(fill: Colour)
      requires Valid()
      modifies this
      ensures Valid()
      ensures Inputs() == old(Inputs()).(fill := fill)
      ensures flowerCorollas == DrawnFrames(math, Inputs()) + Reversed(old(flowerCorollas))
    {
      this.fill := fill;
      Draw();
    }

    method SetStroke(stroke: Colour)
      requires Valid()
      modifies this
      ensures Valid()
      ensures Inputs() == old(Inputs()).(stroke := stroke)
      ensures flowerCorollas == DrawnFrames(math, Inputs()) + Reversed(old(flowerCorollas))
    {
      this.stroke := stroke;
      Draw();
    }

    /** The flower as a scene graph: the drawing of the current inputs. */
    function GetFlowerSVG(): (r: Svg)
      reads this
      requires Valid()
      ensures r == Scene(math, Inputs())
    {
      flower
    }

    /** The frame list: it begins with the frames of the current inputs. */
    function GetCorollasSVG(): (r: seq<Svg>)
      reads this
      requires Valid()
      ensures DrawnFrames(math, Inputs()) <= r
    {
      flowerCorollas
    }

    function GetLeftCathetus(): (r: real)
      reads this
      requires Valid()
      ensures 0.0 <= r
    {
      leftCathetus
    }

    function GetRightCathetus(): (r: real)
      reads this
      requires Valid()
      ensures 0.0 <= r
    {
      rightCathetus
    }

    /** math.hypot of the two legs, the side the under petal is built on. */
    function GetHypotenuse(): (r: real)
      reads this
      requires Valid()
      ensures 0.0 < r
      ensures r == BoxLayout(math, Inputs()).hypotenuse
    {
      math.hypot(leftCathetus, rightCathetus)
    }

    function GetSides(): (r: int)
      reads this
      requires Valid()
      ensures MinSides <= r <= MaxSides
      ensures |GetFlowerSVG().elements| == r - MinSides + 2
    {
      sides
    }

    /** The fill colour, which the base triangle is painted with. */
    function GetFill(): (r: Colour)
      reads this
      requires Valid()
      ensures GetFlowerSVG().elements[0].fill == Some(r)
    {
      fill
    }

    /** The stroke colour, which the base triangle is outlined with. */
    function GetStroke(): (r: Colour)
      reads this
      requires Valid()
      ensures GetFlowerSVG().elements[0].stroke == r
    {
      stroke
    }
  }
}
