/** `Rectangle::parse` of claris-impl/src/node/rectangle.rs. */
module RectangleNode {
  import opened Wrappers
  import opened YamlExt
  import opened NodeErrors
  import opened NodeFields
  import Colors
  import Strokes
  import Scales

  datatype Rectangle = Rectangle(
    x: real, y: real, width: real, height: real,
    fill: bool,
    color: Colors.Color, stroke: Strokes.Stroke, scale: Scales.Scale,
    radius: real)

  const Name: string := "rectangle"

  /** All four required numbers are there. */
  predicate NumbersPresent(src: Yaml) {
    F64Val(src, "x").Some? && F64Val(src, "y").Some? && F64Val(src, "width").Some? && F64Val(src, "height").Some?
  }

  /**
   * x, y, width and height are required in that order, then the colour (whose
   * alpha the `alpha` option replaces, default 1.0); fill, radius, stroke and
   * scale fall back to false, 0.0 and the defaults.
   */
  function Parse(src: Yaml): (r: Result<Rectangle, NodeError>)
    ensures F64Val(src, "x").None? ==> r == Err(Required(Name, "x"))
    ensures F64Val(src, "x").Some? && F64Val(src, "y").None? ==> r == Err(Required(Name, "y"))
    ensures F64Val(src, "x").Some? && F64Val(src, "y").Some? && F64Val(src, "width").None? ==>
              r == Err(Required(Name, "width"))
    ensures F64Val(src, "x").Some? && F64Val(src, "y").Some? && F64Val(src, "width").Some? && F64Val(src, "height").None? ==>
              r == Err(Required(Name, "height"))
    ensures NumbersPresent(src) ==>
              (r.Err? <==> Colors.LayerColor(src, Name, Colors.AlphaOption(src, 1.0)).Err?)
    ensures NumbersPresent(src) && r.Err? ==>
              r.error == Colors.LayerColor(src, Name, Colors.AlphaOption(src, 1.0)).error
    ensures r.Ok? ==>
              && r.value.x == F64Val(src, "x").value && r.value.y == F64Val(src, "y").value
              && r.value.width == F64Val(src, "width").value && r.value.height == F64Val(src, "height").value
              && r.value.fill == BoolVal(src, "fill").GetOr(false)
              && r.value.radius == F64Val(src, "radius").GetOr(0.0)
              && r.value.color == Colors.LayerColor(src, Name, Colors.AlphaOption(src, 1.0)).value
              && r.value.stroke == Strokes.FromLayer(src)
              && r.value.scale == Scales.FromLayer(src)
  {
    var x :- RequiredNumber(src, Name, "x");
    var y :- RequiredNumber(src, Name, "y");
    var width :- RequiredNumber(src, Name, "width");
    var height :- RequiredNumber(src, Name, "height");
    var fill := BoolVal(src, "fill").GetOr(false);
    var radius := F64Val(src, "radius").GetOr(0.0);
    var alpha := Colors.AlphaOption(src, 1.0);
    var color :- Colors.LayerColor(src, Name, alpha);
    var stroke := Strokes.FromLayer(src);
    var scale := Scales.FromLayer(src);
    Ok(Rectangle(x, y, width, height, fill, color, stroke, scale, radius))
  }
}
