/**
 * `Root::parse`, `parse_layers` and `parse_layer` of
 * claris-impl/src/node/root.rs: the canvas size, the background colour and the
 * ordered list of layers of a document.
 */
module RootNode {
  import opened Wrappers
  import opened YamlExt
  import opened NodeErrors
  import opened Layers
  import Colors
  import RectangleNode
  import CircleNode
  import ArcNode
  import TriangleNode
  import PolygonNode
  import LineNode
  import CurveNode
  import TextNode

  /** A document: the canvas size (32-bit), the background and the layers in document order. */
  datatype Root = Root(width: int, height: int, color: Colors.Color, layers: seq<Layer>)

  const Name: string := "root node"

  /** Fully transparent black: the background when `color` is absent or does not parse. */
  const Transparent: Colors.Color := Colors.Color(0, 0, 0, 0.0)

  /** The background: an opaque parsed `color`, or transparent. */
  function Background(src: Yaml): (c: Colors.Color)
    ensures StringVal(src, "color").None? ==> c == Transparent
    ensures StringVal(src, "color").Some? && Colors.CssParse(StringVal(src, "color").value).None? ==> c == Transparent
    ensures StringVal(src, "color").Some? && Colors.CssParse(StringVal(src, "color").value).Some? ==>
              var css := Colors.CssParse(StringVal(src, "color").value).value;
              c == Colors.Color(css.r, css.g, css.b, 1.0)
  {
    match StringVal(src, "color")
    case Some(s) =>
      (match Colors.Parse(s)
       case Ok(c) => Colors.New(c.r, c.g, c.b, 1.0)
       case Err(_) => Colors.New(0, 0, 0, 0.0))
    case None => Colors.New(0, 0, 0, 0.0)
  }

  /** The `match key` of `parse_layer`: the key picks the node parser, whose error passes through. */
  function ParseEntry(key: string, entry: Yaml): (r: Result<Layer, NodeError>)
    ensures key !in Keys ==> r == Err(UnknownLayer(key))
    ensures r.Ok? ==> KeyOf(r.value) == key
    ensures key == RectangleNode.Name ==>
              (r.Ok? <==> RectangleNode.Parse(entry).Ok?)
              && (r.Ok? ==> r.value.rectangle == RectangleNode.Parse(entry).value)
              && (r.Err? ==> r.error == RectangleNode.Parse(entry).error)
    ensures key == CircleNode.Name ==>
              (r.Ok? <==> CircleNode.Parse(entry).Ok?)
              && (r.Ok? ==> r.value.circle == CircleNode.Parse(entry).value)
              && (r.Err? ==> r.error == CircleNode.Parse(entry).error)
    ensures key == ArcNode.Name ==>
              (r.Ok? <==> ArcNode.Parse(entry).Ok?)
              && (r.Ok? ==> r.value.arc == ArcNode.Parse(entry).value)
              && (r.Err? ==> r.error == ArcNode.Parse(entry).error)
    ensures key == TriangleNode.Name ==>
              (r.Ok? <==> TriangleNode.Parse(entry).Ok?)
              && (r.Ok? ==> r.value.triangle == TriangleNode.Parse(entry).value)
              && (r.Err? ==> r.error == TriangleNode.Parse(entry).error)
    ensures key == PolygonNode.Name ==>
              (r.Ok? <==> PolygonNode.Parse(entry).Ok?)
              && (r.Ok? ==> r.value.polygon == PolygonNode.Parse(entry).value)
              && (r.Err? ==> r.error == PolygonNode.Parse(entry).error)
    ensures key == LineNode.Name ==>
              (r.Ok? <==> LineNode.Parse(entry).Ok?)
              && (r.Ok? ==> r.value.line == LineNode.Parse(entry).value)
              && (r.Err? ==> r.error == LineNode.Parse(entry).error)
    ensures key == CurveNode.Name ==>
              (r.Ok? <==> CurveNode.Parse(entry).Ok?)
              && (r.Ok? ==> r.value.curve == CurveNode.Parse(entry).value)
              && (r.Err? ==> r.error == CurveNode.Parse(entry).error)
    ensures key == TextNode.Name ==>
              (r.Ok? <==> TextNode.Parse(entry).Ok?)
              && (r.Ok? ==> r.value.text == TextNode.Parse(entry).value)
              && (r.Err? ==> r.error == TextNode.Parse(entry).error)
  {
    KeysDistinct();
    match key
    case "rectangle" => var x :- RectangleNode.Parse(entry); Ok(Layer.Rectangle(x))
    case "circle" => var x :- CircleNode.Parse(entry); Ok(Layer.Circle(x))
    case "arc" => var x :- ArcNode.Parse(entry); Ok(Layer.Arc(x))
    case "triangle" => var x :- TriangleNode.Parse(entry); Ok(Layer.Triangle(x))
    case "polygon" => var x :- PolygonNode.Parse(entry); Ok(Layer.Polygon(x))
    case "line" => var x :- LineNode.Parse(entry); Ok(Layer.Line(x))
    case "curve" => var x :- CurveNode.Parse(entry); Ok(Layer.Curve(x))
    case "text" => var x :- TextNode.Parse(entry); Ok(Layer.Text(x))
    case _ => Err(UnknownLayer(key))
  }

  /**
   * `parse_layer` on one element of `layers`: the mapping must have exactly one
   * entry, keyed by a string; the key is then looked up again as the mapping
   * accessors do (through `FromStr`), so a key that reads as another scalar
   * ("true", "12", "null") is not found and the layer is ill-defined.
   */
  function ParseLayer(h: Mapping): (r: Result<Layer, NodeError>)
    ensures |h| != 1 ==> r == Err(InvalidLayerCount)
    ensures |h| == 1 && !h[0].0.Str? ==> r == Err(InvalidLayerDefine)
    ensures |h| == 1 && h[0].0.Str? && !PlainKey(h[0].0.s) ==> r == Err(InvalidLayerDefine)
    ensures |h| == 1 && h[0].0.Str? && PlainKey(h[0].0.s) ==> r == ParseEntry(h[0].0.s, h[0].1)
  {
    if |h| != 1 then Err(InvalidLayerCount)
    else
      match h[0].0
      case Str(key) =>
        (match HashEntry(h, key)
         case Some(entry) => ParseEntry(key, entry)
         case None => Err(InvalidLayerDefine))
      case _ => Err(InvalidLayerDefine)
  }

  /** A key spelled like a boolean or a number is rejected as ill-defined, not as unknown. */
  lemma ScalarKeysAreIllDefined(v: Yaml)
    ensures ParseLayer([(Str("true"), v)]) == Err(InvalidLayerDefine)
    ensures ParseLayer([(Str("12"), v)]) == Err(InvalidLayerDefine)
  {
    NumericKeyIsNotPlain();
    assert !PlainKey("true");
  }

  /** An element of `layers` that is kept: a mapping that parses to a layer. */
  predicate Keeps(parse: Mapping -> Result<Layer, NodeError>, y: Yaml) {
    y.Hash? && parse(y.entries).Ok?
  }

  /**
   * What `parse_layers` computes from the elements of `layers`, given the
   * parser of one layer: any element that is not a mapping fails the whole
   * document; a mapping that does not parse is skipped; the layers that do
   * parse are kept in order.
   */
  function SelectLayers(parse: Mapping -> Result<Layer, NodeError>, items: seq<Yaml>): Result<seq<Layer>, NodeError>
  {
    if items == [] then Ok([])
    else
      var init :- SelectLayers(parse, items[..|items| - 1]);
      var last := items[|items| - 1];
      if !last.Hash? then Err(InvalidLayer)
      else if parse(last.entries).Ok? then Ok(init + [parse(last.entries).value])
      else Ok(init)
  }

  /** The positions of the kept elements. */
  function KeptIndices(parse: Mapping -> Result<Layer, NodeError>, items: seq<Yaml>): seq<nat>
  {
    if items == [] then []
    else
      var init := KeptIndices(parse, items[..|items| - 1]);
      if Keeps(parse, items[|items| - 1]) then init + [|items| - 1] else init
  }

  /** The kept positions are in range, strictly increasing, and are exactly the kept elements. */
  lemma {:induction false} KeptIndicesSpec(parse: Mapping -> Result<Layer, NodeError>, items: seq<Yaml>)
    ensures forall j :: 0 <= j < |KeptIndices(parse, items)| ==> KeptIndices(parse, items)[j] < |items|
    ensures forall j, k :: 0 <= j < k < |KeptIndices(parse, items)| ==> KeptIndices(parse, items)[j] < KeptIndices(parse, items)[k]
    ensures forall i :: 0 <= i < |items| ==> (i in KeptIndices(parse, items) <==> Keeps(parse, items[i]))
  {
    if items != [] {
      var init := items[..|items| - 1];
      KeptIndicesSpec(parse, init);
      assert forall i :: 0 <= i < |init| ==> init[i] == items[i];
    }
  }

  /**
   * `parse_layers` fails exactly when some element is not a mapping, and then
   * with `InvalidLayer`; otherwise the result holds the parsed layers of the
   * kept elements, in document order.
   */
  lemma {:induction false} SelectLayersSpec(parse: Mapping -> Result<Layer, NodeError>, items: seq<Yaml>)
    ensures SelectLayers(parse, items).Err? <==> exists i :: 0 <= i < |items| && !items[i].Hash?
    ensures SelectLayers(parse, items).Err? ==> SelectLayers(parse, items).error == InvalidLayer
    ensures SelectLayers(parse, items).Ok? ==>
              var k := KeptIndices(parse, items);
              |SelectLayers(parse, items).value| == |k|
              && forall j :: 0 <= j < |k| ==>
                   k[j] < |items| && Keeps(parse, items[k[j]])
                   && SelectLayers(parse, items).value[j] == parse(items[k[j]].entries).value
  {
    KeptIndicesSpec(parse, items);
    if items != [] {
      var init := items[..|items| - 1];
      SelectLayersSpec(parse, init);
      KeptIndicesSpec(parse, init);
      assert forall i :: 0 <= i < |init| ==> init[i] == items[i];
    }
  }

  /** One more element that is a mapping: its layer is appended when it parses. */
  lemma SelectLayersStep(parse: Mapping -> Result<Layer, NodeError>, items: seq<Yaml>, i: nat, done: seq<Layer>)
    requires i < |items| && items[i].Hash?
    requires SelectLayers(parse, items[..i]) == Ok(done)
    ensures parse(items[i].entries).Ok? ==> SelectLayers(parse, items[..i + 1]) == Ok(done + [parse(items[i].entries).value])
    ensures parse(items[i].entries).Err? ==> SelectLayers(parse, items[..i + 1]) == Ok(done)
  {
    assert items[..i + 1][..i] == items[..i];
  }

  /** The layers of a document: `layers` must be an array. */
  function LayersOf(src: Yaml): (r: Result<seq<Layer>, NodeError>)
    ensures ArrayVal(src, "layers").None? ==> r == Err(Required(Name, "layers"))
    ensures ArrayVal(src, "layers").Some? ==> r == SelectLayers(ParseLayer, ArrayVal(src, "layers").value)
  {
    match ArrayVal(src, "layers")
    case Some(items) => SelectLayers(ParseLayer, items)
    case None => Err(Required(Name, "layers"))
  }

  /** `parse_layers`: the loop over `layers`, returning at the first element that is not a mapping. */
  method ParseLayers(src: Yaml) returns (r: Result<seq<Layer>, NodeError>)
    ensures r == LayersOf(src)
  {
    var arr := ArrayVal(src, "layers");
    if arr.None? {
      return Err(Required(Name, "layers"));
    }
    var items := arr.value;
    var parse := ParseLayer;
    var ret: seq<Layer> := [];
    var i := 0;
    while i < |items|
      invariant 0 <= i <= |items|
      invariant SelectLayers(parse, items[..i]) == Ok(ret)
    {
      if !items[i].Hash? {
        SelectLayersSpec(parse, items);
        return Err(InvalidLayer);
      }
      var layer := parse(items[i].entries);
      SelectLayersStep(parse, items, i, ret);
      if layer.Ok? {
        ret := ret + [layer.value];
      }
      i := i + 1;
    }
    assert items[..i] == items;
    return Ok(ret);
  }

  /**
   * `Root::parse`: width and height are required 32-bit integers, in that order;
   * the background defaults to transparent; then the layers.
   */
  function Parse(src: Yaml): (r: Result<Root, NodeError>)
    ensures I32Val(src, "width").None? ==> r == Err(Required(Name, "width"))
    ensures I32Val(src, "width").Some? && I32Val(src, "height").None? ==> r == Err(Required(Name, "height"))
    ensures I32Val(src, "width").Some? && I32Val(src, "height").Some? ==>
              (r.Err? <==> LayersOf(src).Err?) && (r.Err? ==> r.error == LayersOf(src).error)
    ensures r.Ok? ==>
              && r.value.width == I32Val(src, "width").value
              && r.value.height == I32Val(src, "height").value
              && r.value.color == Background(src)
              && r.value.layers == LayersOf(src).value
  {
    var width :- match I32Val(src, "width")
                 case Some(w) => Ok(w)
                 case None => Err(Required(Name, "width"));
    var height :- match I32Val(src, "height")
                  case Some(h) => Ok(h)
                  case None => Err(Required(Name, "height"));
    var color := Background(src);
    var layers :- LayersOf(src);
    Ok(Root(width, height, color, layers))
  }

  /** The background's alpha is always in range, and it is 1.0 exactly when a colour was given and parsed. */
  lemma BackgroundAlpha(src: Yaml)
    ensures Colors.ValidAlpha(Background(src).a)
    ensures Background(src).a == 1.0 <==>
              StringVal(src, "color").Some? && Colors.CssParse(StringVal(src, "color").value).Some?
  {
  }
}
