/** `Triangle::parse` and `parse_vertex` of claris-impl/src/node/triangle.rs. */
module TriangleNode {
  import opened Wrappers
  import opened YamlExt
  import opened NodeErrors
  import opened Points
  import Colors
  import Strokes
  import Scales

  /** The three corners, in the order they are listed. */
  datatype Vertex = Vertex(a: Point, b: Point, c: Point)

  datatype Triangle = Triangle(
    fill: bool,
    color: Colors.Color, stroke: Strokes.Stroke, scale: Scales.Scale,
    vertex: Vertex)

  const Name: string := "triangle"

  /** `vertex` holds exactly three point nodes. */
  predicate ThreePoints(v: seq<Yaml>) {
    |v| == 3 && AsPoint(v[0]).Some? && AsPoint(v[1]).Some? && AsPoint(v[2]).Some?
  }

  /**
   * `parse_vertex`: `vertex` must be an array (else it is missing), of exactly
   * three elements (else the vertex is invalid), each a point (else the point is).
   */
  function ParseVertex(src: Yaml): (r: Result<Vertex, NodeError>)
    ensures ArrayVal(src, "vertex").None? ==> r == Err(Required(Name, "vertex"))
    ensures ArrayVal(src, "vertex").Some? && |ArrayVal(src, "vertex").value| != 3 ==> r == Err(InvalidVertex)
    ensures ArrayVal(src, "vertex").Some? && |ArrayVal(src, "vertex").value| == 3 && r.Err? ==> r == Err(InvalidPoint)
    ensures r.Ok? <==> ArrayVal(src, "vertex").Some? && ThreePoints(ArrayVal(src, "vertex").value)
    ensures r.Ok? ==> var v := ArrayVal(src, "vertex").value;
                      r.value == Vertex(AsPoint(v[0]).value, AsPoint(v[1]).value, AsPoint(v[2]).value)
  {
    var v :- match ArrayVal(src, "vertex")
             case Some(v) => Ok(v)
             case None => Err(Required(Name, "vertex"));
    if |v| != 3 then Err(InvalidVertex)
    else
      var a :- PointOr(v[0]);
      var b :- PointOr(v[1]);
      var c :- PointOr(v[2]);
      Ok(Vertex(a, b, c))
  }

  /** `as_point().ok_or(InvalidPoint)`. */
  function PointOr(node: Yaml): (r: Result<Point, NodeError>)
    ensures r.Ok? <==> AsPoint(node).Some?
    ensures r.Ok? ==> r.value == AsPoint(node).value
    ensures r.Err? ==> r.error == InvalidPoint
  {
    match AsPoint(node)
    case Some(p) => Ok(p)
    case None => Err(InvalidPoint)
  }

  /**
   * `Triangle::parse`: the colour is checked before the vertex; fill, stroke and
   * scale default.
   */
  function Parse(src: Yaml): (r: Result<Triangle, NodeError>)
    ensures Colors.LayerColor(src, Name, Colors.AlphaOption(src, 1.0)).Err? ==>
              r == Err(Colors.LayerColor(src, Name, Colors.AlphaOption(src, 1.0)).error)
    ensures Colors.LayerColor(src, Name, Colors.AlphaOption(src, 1.0)).Ok? ==>
              (r.Err? <==> ParseVertex(src).Err?)
    ensures Colors.LayerColor(src, Name, Colors.AlphaOption(src, 1.0)).Ok? && r.Err? ==>
              r.error == ParseVertex(src).error
    ensures r.Ok? ==>
              && r.value.fill == BoolVal(src, "fill").GetOr(false)
              && r.value.color == Colors.LayerColor(src, Name, Colors.AlphaOption(src, 1.0)).value
              && r.value.stroke == Strokes.FromLayer(src)
              && r.value.scale == Scales.FromLayer(src)
              && r.value.vertex == ParseVertex(src).value
  {
    var fill := BoolVal(src, "fill").GetOr(false);
    var alpha := Colors.AlphaOption(src, 1.0);
    var color :- Colors.LayerColor(src, Name, alpha);
    var stroke := Strokes.FromLayer(src);
    var scale := Scales.FromLayer(src);
    var vertex :- ParseVertex(src);
    Ok(Triangle(fill, color, stroke, scale, vertex))
  }
}
