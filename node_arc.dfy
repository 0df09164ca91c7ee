/** `Arc::parse` of claris-impl/src/node/arc.rs. */
module ArcNode {
  import opened Wrappers
  import opened YamlExt
  import opened NodeErrors
  import opened NodeFields
  import Colors
  import Strokes
  import Scales

  /** An arc; `start` and `end` are angles in degrees. */
  datatype Arc = Arc(
    x: real, y: real, start: real, end: real,
    close: bool, fill: bool,
    color: Colors.Color, stroke: Strokes.Stroke, scale: Scales.Scale,
    radius: real)

  const Name: string := "arc"

  /** x, y, start, end and radius are there. */
  predicate NumbersPresent(src: Yaml) {
    F64Val(src, "x").Some? && F64Val(src, "y").Some? && F64Val(src, "start").Some?
    && F64Val(src, "end").Some? && F64Val(src, "radius").Some?
  }

  /**
   * x, y, start, end and radius are required in that order, then the colour
   * with the `alpha` option applied; fill, close, stroke and scale default.
   */
  function Parse(src: Yaml): (r: Result<Arc, NodeError>)
    ensures F64Val(src, "x").None? ==> r == Err(Required(Name, "x"))
    ensures F64Val(src, "x").Some? && F64Val(src, "y").None? ==> r == Err(Required(Name, "y"))
    ensures F64Val(src, "x").Some? && F64Val(src, "y").Some? && F64Val(src, "start").None? ==>
              r == Err(Required(Name, "start"))
    ensures F64Val(src, "x").Some? && F64Val(src, "y").Some? && F64Val(src, "start").Some? && F64Val(src, "end").None? ==>
              r == Err(Required(Name, "end"))
    ensures (F64Val(src, "x").Some? && F64Val(src, "y").Some? && F64Val(src, "start").Some? && F64Val(src, "end").Some?
             && F64Val(src, "radius").None?) ==>
              r == Err(Required(Name, "radius"))
    ensures NumbersPresent(src) ==>
              (r.Err? <==> Colors.LayerColor(src, Name, Colors.AlphaOption(src, 1.0)).Err?)
    ensures NumbersPresent(src) && r.Err? ==>
              r.error == Colors.LayerColor(src, Name, Colors.AlphaOption(src, 1.0)).error
    ensures r.Ok? ==>
              && r.value.x == F64Val(src, "x").value && r.value.y == F64Val(src, "y").value
              && r.value.start == F64Val(src, "start").value && r.value.end == F64Val(src, "end").value
              && r.value.radius == F64Val(src, "radius").value
              && r.value.fill == BoolVal(src, "fill").GetOr(false)
              && r.value.close == BoolVal(src, "close").GetOr(false)
              && r.value.color == Colors.LayerColor(src, Name, Colors.AlphaOption(src, 1.0)).value
              && r.value.stroke == Strokes.FromLayer(src)
              && r.value.scale == Scales.FromLayer(src)
  {
    var x :- RequiredNumber(src, Name, "x");
    var y :- RequiredNumber(src, Name, "y");
    var start :- RequiredNumber(src, Name, "start");
    var end :- RequiredNumber(src, Name, "end");
    var fill := BoolVal(src, "fill").GetOr(false);
    var close := BoolVal(src, "close").GetOr(false);
    var radius :- RequiredNumber(src, Name, "radius");
    var alpha := Colors.AlphaOption(src, 1.0);
    var color :- Colors.LayerColor(src, Name, alpha);
    var stroke := Strokes.FromLayer(src);
    var scale := Scales.FromLayer(src);
    Ok(Arc(x, y, start, end, close, fill, color, stroke, scale, radius))
  }
}
