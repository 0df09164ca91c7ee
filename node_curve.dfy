/** `Curve::parse` of claris-impl/src/node/curve.rs. */
module CurveNode {
  import opened Wrappers
  import opened YamlExt
  import opened NodeErrors
  import opened Points
  import Colors
  import Strokes
  import Scales

  /** A quadratic-looking curve given by three control points. */
  datatype Curve = Curve(
    color: Colors.Color, stroke: Strokes.Stroke, scale: Scales.Scale,
    start: Point, mid: Point, end: Point)

  const Name: string := "curve"

  /** One control point: an array is required, and it must be a point. */
  function ControlPoint(src: Yaml, field: string): (r: Result<Point, NodeError>)
    ensures ArrayVal(src, field).None? ==> r == Err(Required(Name, field))
    ensures ArrayVal(src, field).Some? ==> (r.Ok? <==> AsPointVec(ArrayVal(src, field).value).Some?)
    ensures ArrayVal(src, field).Some? && r.Err? ==> r.error == InvalidPoint
    ensures r.Ok? ==> r.value == AsPointVec(ArrayVal(src, field).value).value
  {
    var v :- match ArrayVal(src, field)
             case Some(v) => Ok(v)
             case None => Err(Required(Name, field));
    match AsPointVec(v)
    case Some(p) => Ok(p)
    case None => Err(InvalidPoint)
  }

  /**
   * `Curve::parse`: colour first, then start, mid and end in that order; stroke
   * and scale default.
   */
  function Parse(src: Yaml): (r: Result<Curve, NodeError>)
    ensures Colors.LayerColor(src, Name, Colors.AlphaOption(src, 1.0)).Err? ==>
              r == Err(Colors.LayerColor(src, Name, Colors.AlphaOption(src, 1.0)).error)
    ensures Colors.LayerColor(src, Name, Colors.AlphaOption(src, 1.0)).Ok? && ControlPoint(src, "start").Err? ==>
              r == Err(ControlPoint(src, "start").error)
    ensures (Colors.LayerColor(src, Name, Colors.AlphaOption(src, 1.0)).Ok? && ControlPoint(src, "start").Ok?
             && ControlPoint(src, "mid").Err?) ==>
              r == Err(ControlPoint(src, "mid").error)
    ensures (Colors.LayerColor(src, Name, Colors.AlphaOption(src, 1.0)).Ok? && ControlPoint(src, "start").Ok?
             && ControlPoint(src, "mid").Ok?) ==>
              (r.Err? <==> ControlPoint(src, "end").Err?)
    ensures (Colors.LayerColor(src, Name, Colors.AlphaOption(src, 1.0)).Ok? && ControlPoint(src, "start").Ok?
             && ControlPoint(src, "mid").Ok? && ControlPoint(src, "end").Err?) ==>
              r == Err(ControlPoint(src, "end").error)
    ensures r.Ok? ==>
              && r.value.color == Colors.LayerColor(src, Name, Colors.AlphaOption(src, 1.0)).value
              && r.value.stroke == Strokes.FromLayer(src)
              && r.value.scale == Scales.FromLayer(src)
              && r.value.start == ControlPoint(src, "start").value
              && r.value.mid == ControlPoint(src, "mid").value
              && r.value.end == ControlPoint(src, "end").value
  {
    var alpha := Colors.AlphaOption(src, 1.0);
    var color :- Colors.LayerColor(src, Name, alpha);
    var stroke := Strokes.FromLayer(src);
    var scale := Scales.FromLayer(src);
    var start :- ControlPoint(src, "start");
    var mid :- ControlPoint(src, "mid");
    var end :- ControlPoint(src, "end");
    Ok(Curve(color, stroke, scale, start, mid, end))
  }
}
