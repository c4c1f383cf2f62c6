/** Properties of the Pythagoras flower model that relate several of its
    operations: the shape of the polygons, the layout geometry, the structure
    of the scene and of its frames, and how the frame list evolves over
    successive rebuilds. */
module FlowerProperties {
  import opened Results
  import opened PyMath
  import opened SvgScene
  import opened Lists
  import opened Format
  import opened PyFlower

  // ---------------------------------------------------------------------
  // Polygons

  /** A polygon with n >= 1 sides has n points, the first at the origin; a
      negative side count leaves only the origin. */
  lemma PolygonPointListShape(m: MathLib, len: real, n: int)
    requires n != 0
    ensures 1 <= n ==> |PolygonPointList(m, len, n)| == 2 * n
    ensures n < 0 ==> PolygonPointList(m, len, n) == [0.0, 0.0]
    ensures PointAt(PolygonPointList(m, len, n), 0) == (0.0, 0.0)
  {
    var s := if 1 <= n then n - 1 else 0;
    FlatPointsAt(m, len, ExternalAngle(m, n), s, 0);
  }

  /** Consecutive points of the polygon are one side of length `len` apart,
      side k - 1 turned by (k - 1) times the external angle 2 pi / n. */
  lemma PolygonPointStep(m: MathLib, len: real, n: int, k: nat)
    requires 1 <= k < n
    ensures var r := PolygonPointList(m, len, n);
      var d := Step(m, len, ExternalAngle(m, n), k - 1);
      PointAt(r, k) == (PointAt(r, k - 1).0 + d.0, PointAt(r, k - 1).1 + d.1)
  {
    var angle := ExternalAngle(m, n);
    FlatPointsAt(m, len, angle, n - 1, k);
    FlatPointsAt(m, len, angle, n - 1, k - 1);
    var j: nat := k - 1;
    VertexStep(m, len, angle, j);
    assert j + 1 == k;
  }

  // ---------------------------------------------------------------------
  // Side count

  /** Clamping sends counts below the range to 3 and above it to 12, and is
      idempotent and monotonic. */
  lemma CheckedSidesNumberStable(a: int, b: int)
    ensures a < MinSides ==> PythagorasFlower.CheckedSidesNumber(a) == MinSides
    ensures a > MaxSides ==> PythagorasFlower.CheckedSidesNumber(a) == MaxSides
    ensures PythagorasFlower.CheckedSidesNumber(PythagorasFlower.CheckedSidesNumber(a))
         == PythagorasFlower.CheckedSidesNumber(a)
    ensures a <= b ==> PythagorasFlower.CheckedSidesNumber(a) <= PythagorasFlower.CheckedSidesNumber(b)
  {
  }

  // ---------------------------------------------------------------------
  // Layout

  /** PadUp gives the least margin-aligned width that fits the extent plus the margin. */
  lemma PadUpLeast(w: real, k: int)
    requires (k - Margin) % 10 == 0 && w + Margin as real <= k as real
    ensures PadUp(w) <= k
  {
    var j := (k - Margin) / 10;
    assert k == Margin + 10 * j;
    var c := Ceil(w / 10.0);
    assert w / 10.0 <= j as real;
    assert c < j + 1;
  }

  /** The circumradii solve r * 2 sin(pi / n) = side for each of the three
      sides, and the altitude times the hypotenuse is the product of the legs. */
  lemma LayoutRadii(m: MathLib, p: Params)
    requires Buildable(m, p)
    ensures var g := BoxLayout(m, p);
      && g.radiusLeft * (2.0 * SinPiOver(m, p.sides)) == p.left
      && g.radiusRight * (2.0 * SinPiOver(m, p.sides)) == p.right
      && g.radiusHypotenuse * (2.0 * SinPiOver(m, p.sides)) == g.hypotenuse
      && g.height * g.hypotenuse == p.left * p.right
  {
  }

  /** The over extent uses the smaller of the two base angles and the bigger
      of the two leg radii. */
  lemma LayoutExtremes(m: MathLib, p: Params)
    requires Buildable(m, p)
    ensures var g := BoxLayout(m, p);
      && g.angleSmaller <= g.leftAngle && g.angleSmaller <= g.rightAngle
      && (g.angleSmaller == g.leftAngle || g.angleSmaller == g.rightAngle)
      && g.radiusLeft <= g.radiusBigger && g.radiusRight <= g.radiusBigger
      && (g.radiusBigger == g.radiusLeft || g.radiusBigger == g.radiusRight)
  {
  }

  // ---------------------------------------------------------------------
  // Corollas

  /** A corolla is the group "Corolla <q - 3>" filled with the flower's fill,
      holding the three petals with q sides each, built on the left leg, the
      right leg and the hypotenuse, outlined with the stroke colour. */
  lemma CorollaStructure(m: MathLib, p: Params, g: Layout, q: int)
    requires m.pi != 0.0 && MinSides <= q
    ensures var c := Corolla(m, p, g, q);
      && c.G? && c.id == "Corolla " + NatToDecimal(q - MinSides) && c.fill == Some(p.fill)
      && |c.children| == 3
      && c.children[0].Polygon? && c.children[0].points == PolygonPointList(m, p.left, q)
      && c.children[1].Polygon? && c.children[1].points == PolygonPointList(m, p.right, q)
      && c.children[2].Polygon? && c.children[2].points == PolygonPointList(m, g.hypotenuse, q)
      && (forall i :: 0 <= i < 3 ==>
            && |c.children[i].points| == 2 * q
            && c.children[i].stroke == p.stroke
            && c.children[i].fill.None?)
  {
    var c := Corolla(m, p, g, q);
    PolygonPointListShape(m, p.left, q);
    PolygonPointListShape(m, p.right, q);
    PolygonPointListShape(m, g.hypotenuse, q);
    assert c.children[0].points == PolygonPointList(m, p.left, q);
  }

  /** The petals carry an animation exactly when the flower is animated: the
      two leg petals skew along x, the hypotenuse petal along y. */
  lemma PetalAnimation(m: MathLib, p: Params, g: Layout, q: int)
    requires m.pi != 0.0 && MinSides <= q
    ensures var c := Corolla(m, p, g, q);
      && |c.children| == 3
      && (forall i :: 0 <= i < 3 ==> (c.children[i].animations.Some? <==> p.animate))
      && (p.animate ==> c.children[0].animations == Some([Skew("skewX")]))
      && (p.animate ==> c.children[1].animations == Some([Skew("skewX")]))
      && (p.animate ==> c.children[2].animations == Some([Skew("skewY")]))
  {
  }

  /** Two corollas of a drawing share an id only when they have the same side count. */
  lemma {:induction false} CorollaIdsDistinct(a: nat, b: nat)
    requires CorollaId(a) == CorollaId(b)
    ensures a == b
  {
    var prefix := "Corolla ";
    assert CorollaId(a)[|prefix|..] == NatToDecimal(a);
    assert CorollaId(b)[|prefix|..] == NatToDecimal(b);
    NatToDecimalInjective(a, b);
  }

  /** The leg petals start at the right-angle vertex, where the triangle is
      anchored, and the hypotenuse petal starts at the triangle's left vertex. */
  lemma PetalsAtTriangleVertices(m: MathLib, p: Params, g: Layout, q: int)
    requires m.pi != 0.0 && MinSides <= q
    ensures var c := Corolla(m, p, g, q);
      var t := Triangle(p, g);
      var anchor := t.transform[0];
      && |c.children| == 3
      && c.children[0].transform[0] == anchor
      && c.children[1].transform[0] == anchor
      && c.children[2].transform == [Translate(anchor.x + t.points[2], anchor.y + t.points[3])]
  {
  }

  // ---------------------------------------------------------------------
  // Scene and frames

  /** The drawing is the triangle followed by one corolla per side count
      from `sides` down to three, in a view box of the padded widths. */
  lemma SceneStructure(m: MathLib, p: Params)
    requires Buildable(m, p)
    ensures var s := Scene(m, p);
      var g := BoxLayout(m, p);
      && s.viewBox == Some(ViewBoxSpec(0, 0, g.widthLeft + g.widthRight, g.widthUnder + g.widthOver))
      && |s.elements| == p.sides - 1
      && s.elements[0] == Triangle(p, g)
      && (forall i :: 1 <= i < |s.elements| ==> s.elements[i] == Corolla(m, p, g, p.sides + 1 - i))
      && s.elements[|s.elements| - 1] == Corolla(m, p, g, MinSides)
  {
    var s := Scene(m, p);
    var g := BoxLayout(m, p);
    var cs := Corollas(m, p, g);
    forall i | 1 <= i < |s.elements|
      ensures s.elements[i] == Corolla(m, p, g, p.sides + 1 - i)
    {
      assert s.elements[i] == cs[i - 1];
    }
  }

  /** Frame j of a drawing shows the triangle with the corolla of j + 3 sides
      alone, in the drawing's own view box. */
  lemma AscendingFramesAt(m: MathLib, p: Params, g: Layout, j: int)
    requires m.pi != 0.0 && MinSides <= p.sides
    requires 0 <= j < |AscendingFrames(m, p, g)|
    ensures var f := AscendingFrames(m, p, g)[j];
      && |AscendingFrames(m, p, g)| == p.sides - MinSides + 1
      && f.viewBox == ViewBox(g)
      && f.elements == [Triangle(p, g), Corolla(m, p, g, MinSides + j)]
      && f.elements[1].id == CorollaId(j)
  {
    assert AscendingFrames(m, p, g)[j] == Frame(m, p, g, MinSides + j);
  }

  /** The frames of one drawing are exactly its corollas, one per frame, in
      reverse generation order. */
  lemma FramesMatchScene(m: MathLib, p: Params)
    requires Buildable(m, p)
    ensures var s := Scene(m, p);
      var f := DrawnFrames(m, p);
      && |f| == |s.elements| - 1
      && (forall j :: 0 <= j < |f| ==>
            f[j].viewBox == s.viewBox && f[j].elements == [s.elements[0], s.elements[|s.elements| - 1 - j]])
  {
    var s := Scene(m, p);
    var g := BoxLayout(m, p);
    var f := DrawnFrames(m, p);
    SceneStructure(m, p);
    forall j | 0 <= j < |f|
      ensures f[j].viewBox == s.viewBox && f[j].elements == [s.elements[0], s.elements[|s.elements| - 1 - j]]
    {
      AscendingFramesAt(m, p, g, j);
    }
  }

  // ---------------------------------------------------------------------
  // The frame list across rebuilds

  /** Two rebuilds after a drawing with frames `a`: the first with frames `b`,
      the second with frames `a` again. The list then holds `a` twice, in
      ascending order both times, followed by `b` reversed. */
  lemma {:induction false} RedrawHistory<T>(a: seq<T>, b: seq<T>)
    ensures a + Reversed(b + Reversed(a)) == a + a + Reversed(b)
  {
    ReversedAppend(b, Reversed(a));
    ReversedTwice(a);
  }

  /** A flower of 30, 40 and ten sides, set to five sides and back to ten,
      draws the same flower as a new one with ten sides, but its frame list
      keeps every frame built along the way: 19 frames against 8. */
  method ResetSidesScenario(m: MathLib) returns (scene: Svg, frames: seq<Svg>, freshScene: Svg, freshFrames: seq<Svg>)
    requires Sound(m)
    ensures scene == freshScene
    ensures |freshFrames| == 8 && |frames| == 19
    ensures frames[..8] == freshFrames && frames[8..16] == freshFrames
    ensures Defined(m) && frames[16..] == Reversed(DrawnFrames(m, Params(30.0, 40.0, 5, "black", "white", false)))
  {
    SoundIsDefined(m);
    var flower := new PythagorasFlower(m, 30.0, 40.0, 10);
    var first := flower.flowerCorollas;
    flower.SetSides(5);
    var second := DrawnFrames(m, flower.Inputs());
    flower.SetSides(10);
    RedrawHistory(first, second);
    var other := new PythagorasFlower(m, 30.0, 40.0, 10);
    scene := flower.GetFlowerSVG();
    frames := flower.GetCorollasSVG();
    freshScene := other.GetFlowerSVG();
    freshFrames := other.GetCorollasSVG();
    assert frames == freshFrames + freshFrames + Reversed(second);
  }
}
