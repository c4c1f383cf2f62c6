/** The part of the svg.py scene graph the flower builds: polygons, groups,
    transforms, animated transforms and the SVG root with its view box.
    Serialisation to text is not modelled. */
module SvgScene {
  import opened Results

  /** Colours are passed through to the renderer uninterpreted. */
  type Colour = string

  datatype Transform =
    | Translate(x: real, y: real)
    | Rotate(angle: real)
    | Scale(x: real, y: real)

  /** svg.AnimateTransform with its attributes as given. */
  datatype AnimateTransform = AnimateTransform(
    attributeName: string,
    kind: string,
    values: string,
    begin: string,
    dur: string,
    repeatCount: string,
    additive: string)

  datatype Element =
      /** svg.Polygon: flat x, y coordinates, optional fill and stroke width,
          a transform list and optional animation children. */
    | Polygon(
        points: seq<real>,
        fill: Option<Colour>,
        stroke: Colour,
        strokeWidth: Option<int>,
        transform: seq<Transform>,
        animations: Option<seq<AnimateTransform>>)
      /** svg.G: a named group with a fill inherited by its children. */
    | G(id: string, fill: Option<Colour>, children: seq<Element>)

  datatype ViewBoxSpec = ViewBoxSpec(minX: int, minY: int, width: int, height: int)

  /** svg.SVG: the root of a drawing. */
  datatype Svg = Svg(viewBox: Option<ViewBoxSpec>, elements: seq<Element>)

  /** svg.SVG() with no arguments. */
  const EmptySvg := Svg(None, [])
}
