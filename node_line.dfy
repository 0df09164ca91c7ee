/** `Line::parse` and `parse_points` of claris-impl/src/node/line.rs. */
module LineNode {
  import opened Wrappers
  import opened YamlExt
  import opened NodeErrors
  import opened Points
  import Colors
  import Strokes
  import Scales

  datatype Line = Line(
    color: Colors.Color, stroke: Strokes.Stroke, scale: Scales.Scale,
    points: seq<Point>)

  const Name: string := "line"

  /** The line's own `alpha` default: 255.0, outside [0, 1], so `Color::new` turns it into 1.0. */
  const LineDefaultAlpha: real := 255.0

  /**
   * The points `parse_points` reads: `points` must be an array; any number of
   * elements is accepted, each must be a point, and the order is kept.
   */
  function PointsOf(src: Yaml): (r: Result<seq<Point>, NodeError>)
    ensures ArrayVal(src, "points").None? ==> r == Err(Required(Name, "points"))
    ensures ArrayVal(src, "points").Some? ==>
              var v := ArrayVal(src, "points").value;
              && (r.Ok? <==> forall i :: 0 <= i < |v| ==> AsPoint(v[i]).Some?)
              && (r.Err? ==> r.error == InvalidPoint)
              && (r.Ok? ==> |r.value| == |v| && forall i :: 0 <= i < |v| ==> r.value[i] == AsPoint(v[i]).value)
  {
    match ArrayVal(src, "points")
    case None => Err(Required(Name, "points"))
    case Some(v) =>
      PointListSpec(v);
      match PointList(v)
      case Some(ps) => Ok(ps)
      case None => Err(InvalidPoint)
  }

  /** `parse_points`: the loop that pushes each point in turn, stopping at the first bad one. */
  method ParsePoints(src: Yaml) returns (r: Result<seq<Point>, NodeError>)
    ensures r == PointsOf(src)
  {
    var arr := ArrayVal(src, "points");
    if arr.None? {
      return Err(Required(Name, "points"));
    }
    var v := arr.value;
    var points: seq<Point> := [];
    var i := 0;
    while i < |v|
      invariant 0 <= i <= |v|
      invariant PointList(v[..i]) == Some(points)
    {
      var point := AsPoint(v[i]);
      if point.None? {
        PointListSpec(v);
        return Err(InvalidPoint);
      }
      assert v[..i + 1][..i] == v[..i];
      points := points + [point.value];
      i := i + 1;
    }
    assert v[..i] == v;
    return Ok(points);
  }

  /**
   * `Line::parse`: the colour (with the line's 255.0 alpha default) is checked
   * before the points; stroke and scale default.
   */
  function Parse(src: Yaml): (r: Result<Line, NodeError>)
    ensures Colors.LayerColor(src, Name, Colors.AlphaOption(src, LineDefaultAlpha)).Err? ==>
              r == Err(Colors.LayerColor(src, Name, Colors.AlphaOption(src, LineDefaultAlpha)).error)
    ensures Colors.LayerColor(src, Name, Colors.AlphaOption(src, LineDefaultAlpha)).Ok? ==>
              (r.Err? <==> PointsOf(src).Err?)
    ensures Colors.LayerColor(src, Name, Colors.AlphaOption(src, LineDefaultAlpha)).Ok? && r.Err? ==>
              r.error == PointsOf(src).error
    ensures r.Ok? ==>
              && r.value.color == Colors.LayerColor(src, Name, Colors.AlphaOption(src, LineDefaultAlpha)).value
              && r.value.stroke == Strokes.FromLayer(src)
              && r.value.scale == Scales.FromLayer(src)
              && r.value.points == PointsOf(src).value
  {
    var alpha := Colors.AlphaOption(src, LineDefaultAlpha);
    var color :- Colors.LayerColor(src, Name, alpha);
    var stroke := Strokes.FromLayer(src);
    var scale := Scales.FromLayer(src);
    var points :- PointsOf(src);
    Ok(Line(color, stroke, scale, points))
  }

  /** Without an `alpha` option a line comes out opaque, despite the 255.0 default. */
  lemma OmittedAlphaIsOpaque(src: Yaml)
    requires F32Val(src, "alpha").None?
    requires Parse(src).Ok?
    ensures Parse(src).value.color.a == 1.0
  {
  }
}
