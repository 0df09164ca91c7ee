/** `Polygon::parse` and `parse_vertex` of claris-impl/src/node/polygon.rs. */
module PolygonNode {
  import opened Wrappers
  import opened YamlExt
  import opened NodeErrors
  import opened Points
  import Colors
  import Strokes
  import Scales

  datatype Polygon = Polygon(
    fill: bool,
    color: Colors.Color, stroke: Strokes.Stroke, scale: Scales.Scale,
    vertex: seq<Point>)

  const Name: string := "polygon"

  /**
   * The corners `parse_vertex` reads: `vertex` must be an array; any number of
   * elements is accepted, each must be a point, and the order is kept.
   */
  function Vertices(src: Yaml): (r: Result<seq<Point>, NodeError>)
    ensures ArrayVal(src, "vertex").None? ==> r == Err(Required(Name, "vertex"))
    ensures ArrayVal(src, "vertex").Some? ==>
              var v := ArrayVal(src, "vertex").value;
              && (r.Ok? <==> forall i :: 0 <= i < |v| ==> AsPoint(v[i]).Some?)
              && (r.Err? ==> r.error == InvalidPoint)
              && (r.Ok? ==> |r.value| == |v| && forall i :: 0 <= i < |v| ==> r.value[i] == AsPoint(v[i]).value)
  {
    match ArrayVal(src, "vertex")
    case None => Err(Required(Name, "vertex"))
    case Some(v) =>
      PointListSpec(v);
      match PointList(v)
      case Some(ps) => Ok(ps)
      case None => Err(InvalidPoint)
  }

  /** `parse_vertex`: the loop that pushes each point in turn, stopping at the first bad one. */
  method ParseVertex(src: Yaml) returns (r: Result<seq<Point>, NodeError>)
    ensures r == Vertices(src)
  {
    var arr := ArrayVal(src, "vertex");
    if arr.None? {
      return Err(Required(Name, "vertex"));
    }
    var v := arr.value;
    var vertex: seq<Point> := [];
    var i := 0;
    while i < |v|
      invariant 0 <= i <= |v|
      invariant PointList(v[..i]) == Some(vertex)
    {
      var point := AsPoint(v[i]);
      if point.None? {
        PointListSpec(v);
        return Err(InvalidPoint);
      }
      assert v[..i + 1][..i] == v[..i];
      vertex := vertex + [point.value];
      i := i + 1;
    }
    assert v[..i] == v;
    return Ok(vertex);
  }

  /**
   * `Polygon::parse`: the colour is checked before the vertex; fill, stroke and
   * scale default.
   */
  function Parse(src: Yaml): (r: Result<Polygon, NodeError>)
    ensures Colors.LayerColor(src, Name, Colors.AlphaOption(src, 1.0)).Err? ==>
              r == Err(Colors.LayerColor(src, Name, Colors.AlphaOption(src, 1.0)).error)
    ensures Colors.LayerColor(src, Name, Colors.AlphaOption(src, 1.0)).Ok? ==>
              (r.Err? <==> Vertices(src).Err?)
    ensures Colors.LayerColor(src, Name, Colors.AlphaOption(src, 1.0)).Ok? && r.Err? ==>
              r.error == Vertices(src).error
    ensures r.Ok? ==>
              && r.value.fill == BoolVal(src, "fill").GetOr(false)
              && r.value.color == Colors.LayerColor(src, Name, Colors.AlphaOption(src, 1.0)).value
              && r.value.stroke == Strokes.FromLayer(src)
              && r.value.scale == Scales.FromLayer(src)
              && r.value.vertex == Vertices(src).value
  {
    var fill := BoolVal(src, "fill").GetOr(false);
    var alpha := Colors.AlphaOption(src, 1.0);
    var color :- Colors.LayerColor(src, Name, alpha);
    var stroke := Strokes.FromLayer(src);
    var scale := Scales.FromLayer(src);
    var vertex :- Vertices(src);
    Ok(Polygon(fill, color, stroke, scale, vertex))
  }

  /** An empty `vertex` array is accepted: a polygon with no corners. */
  lemma EmptyVertexAccepted(src: Yaml)
    requires ArrayVal(src, "vertex") == Some([])
    ensures Vertices(src) == Ok([])
  {
  }
}
