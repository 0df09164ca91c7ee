/** `Text::parse` of claris-impl/src/node/text.rs. */
module TextNode {
  import opened Wrappers
  import opened YamlExt
  import opened NodeErrors
  import opened NodeFields
  import Colors
  import Scales

  /** The surface's font weights and slants. */
  datatype FontWeight = Normal | Bold
  datatype FontSlant = Upright | Italic | Oblique

  datatype Text = Text(
    x: real, y: real,
    color: Colors.Color, scale: Scales.Scale,
    text: string, family: string, size: real,
    weight: FontWeight, slant: FontSlant)

  const Name: string := "text"
  const DefaultFamily: string := "serif"
  const DefaultSize: real := 14.0

  /** `weight`: "bold" is bold, anything else or nothing is normal. */
  function WeightOf(name: Option<string>): (w: FontWeight)
    ensures w == Bold <==> name == Some("bold")
  {
    match name
    case Some("bold") => Bold
    case _ => Normal
  }

  /** `slant`: "italic" and "oblique" are recognised, anything else or nothing is upright. */
  function SlantOf(name: Option<string>): (s: FontSlant)
    ensures s == Italic <==> name == Some("italic")
    ensures s == Oblique <==> name == Some("oblique")
  {
    match name
    case Some("italic") => Italic
    case Some("oblique") => Oblique
    case _ => Upright
  }

  /** x and y are there and so is a parsable colour. */
  predicate ColorPresent(src: Yaml) {
    F64Val(src, "x").Some? && F64Val(src, "y").Some?
    && Colors.LayerColor(src, Name, Colors.AlphaOption(src, 1.0)).Ok?
  }

  /**
   * x, y, colour and text are required in that order; family, size, weight and
   * slant default to "serif", 14.0, normal and upright; the text is kept as is.
   */
  function Parse(src: Yaml): (r: Result<Text, NodeError>)
    ensures F64Val(src, "x").None? ==> r == Err(Required(Name, "x"))
    ensures F64Val(src, "x").Some? && F64Val(src, "y").None? ==> r == Err(Required(Name, "y"))
    ensures F64Val(src, "x").Some? && F64Val(src, "y").Some? && Colors.LayerColor(src, Name, Colors.AlphaOption(src, 1.0)).Err? ==>
              r == Err(Colors.LayerColor(src, Name, Colors.AlphaOption(src, 1.0)).error)
    ensures ColorPresent(src) ==> (r.Err? <==> StringVal(src, "text").None?)
    ensures ColorPresent(src) && r.Err? ==> r.error == Required(Name, "text")
    ensures r.Ok? ==>
              && r.value.x == F64Val(src, "x").value && r.value.y == F64Val(src, "y").value
              && r.value.color == Colors.LayerColor(src, Name, Colors.AlphaOption(src, 1.0)).value
              && r.value.scale == Scales.FromLayer(src)
              && r.value.text == StringVal(src, "text").value
              && r.value.family == StringVal(src, "family").GetOr("serif")
              && r.value.size == F64Val(src, "size").GetOr(14.0)
              && r.value.weight == WeightOf(StrVal(src, "weight"))
              && r.value.slant == SlantOf(StrVal(src, "slant"))
  {
    var x :- RequiredNumber(src, Name, "x");
    var y :- RequiredNumber(src, Name, "y");
    var alpha := Colors.AlphaOption(src, 1.0);
    var color :- Colors.LayerColor(src, Name, alpha);
    var scale := Scales.FromLayer(src);
    var text :- match StringVal(src, "text")
                case Some(t) => Ok(t)
                case None => Err(Required(Name, "text"));
    var family := StringVal(src, "family").GetOr(DefaultFamily);
    var size := F64Val(src, "size").GetOr(DefaultSize);
    var weight := WeightOf(StrVal(src, "weight"));
    var slant := SlantOf(StrVal(src, "slant"));
    Ok(Text(x, y, color, scale, text, family, size, weight, slant))
  }
}
