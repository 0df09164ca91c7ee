/** The `Layer` sum of claris-impl/src/node/layer.rs: one variant per drawable node. */
module Layers {
  import RectangleNode
  import CircleNode
  import ArcNode
  import TriangleNode
  import PolygonNode
  import LineNode
  import CurveNode
  import TextNode

  datatype Layer =
    | Rectangle(rectangle: RectangleNode.Rectangle)
    | Circle(circle: CircleNode.Circle)
    | Arc(arc: ArcNode.Arc)
    | Triangle(triangle: TriangleNode.Triangle)
    | Polygon(polygon: PolygonNode.Polygon)
    | Line(line: LineNode.Line)
    | Curve(curve: CurveNode.Curve)
    | Text(text: TextNode.Text)

  /** The layer-type keys a document may use, one per variant. */
  const Keys: seq<string> := [
    RectangleNode.Name, CircleNode.Name, ArcNode.Name, TriangleNode.Name,
    PolygonNode.Name, LineNode.Name, CurveNode.Name, TextNode.Name
  ]

  /** The key under which a layer of this variant is written. */
  function KeyOf(l: Layer): (k: string)
    ensures k in Keys
  {
    match l
    case Rectangle(_) => RectangleNode.Name
    case Circle(_) => CircleNode.Name
    case Arc(_) => ArcNode.Name
    case Triangle(_) => TriangleNode.Name
    case Polygon(_) => PolygonNode.Name
    case Line(_) => LineNode.Name
    case Curve(_) => CurveNode.Name
    case Text(_) => TextNode.Name
  }

  /** Different variants have different keys: the key names the variant. */
  lemma KeysDistinct()
    ensures RectangleNode.Name != CircleNode.Name && RectangleNode.Name != ArcNode.Name && RectangleNode.Name != TriangleNode.Name && RectangleNode.Name != PolygonNode.Name && RectangleNode.Name != LineNode.Name && RectangleNode.Name != CurveNode.Name && RectangleNode.Name != TextNode.Name
    ensures CircleNode.Name != ArcNode.Name && CircleNode.Name != TriangleNode.Name && CircleNode.Name != PolygonNode.Name && CircleNode.Name != LineNode.Name && CircleNode.Name != CurveNode.Name && CircleNode.Name != TextNode.Name
    ensures ArcNode.Name != TriangleNode.Name && ArcNode.Name != PolygonNode.Name && ArcNode.Name != LineNode.Name && ArcNode.Name != CurveNode.Name && ArcNode.Name != TextNode.Name
    ensures TriangleNode.Name != PolygonNode.Name && TriangleNode.Name != LineNode.Name && TriangleNode.Name != CurveNode.Name && TriangleNode.Name != TextNode.Name
    ensures PolygonNode.Name != LineNode.Name && PolygonNode.Name != CurveNode.Name && PolygonNode.Name != TextNode.Name
    ensures LineNode.Name != CurveNode.Name && LineNode.Name != TextNode.Name
    ensures CurveNode.Name != TextNode.Name
  {
  }
}
