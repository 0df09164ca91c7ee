/** `Stroke` of claris-impl/src/node/stroke.rs: line width and line cap, with defaults. */
module Strokes {
  import opened Wrappers
  import opened YamlExt

  /** The surface's line-cap styles. */
  datatype LineCap = Butt | Round | Square

  datatype Stroke = Stroke(width: real, cap: LineCap)

  const DefaultWidth: real := 1.0
  const DefaultCap: LineCap := Butt

  /** A cap name; an unrecognised one falls back to `Butt`. */
  function CapOf(name: string): (c: LineCap)
    ensures c == Round <==> name == "round"
    ensures c == Square <==> name == "square"
    ensures c == Butt <==> name != "round" && name != "square"
  {
    match name
    case "butt" => Butt
    case "round" => Round
    case "square" => Square
    case _ => DefaultCap
  }

  /** `Stroke::default`. */
  function Default(): Stroke {
    Stroke(DefaultWidth, DefaultCap)
  }

  /** `Stroke::parse` on a mapping. */
  function Parse(src: Mapping): (s: Stroke)
    ensures F64Val(Hash(src), "width").None? ==> s.width == 1.0
    ensures F64Val(Hash(src), "width").Some? ==> s.width == F64Val(Hash(src), "width").value
    ensures StrVal(Hash(src), "cap").None? ==> s.cap == Butt
    ensures StrVal(Hash(src), "cap").Some? ==> s.cap == CapOf(StrVal(Hash(src), "cap").value)
  {
    FieldNamesArePlain();
    var width := HashF64Val(src, "width").GetOr(DefaultWidth);
    var cap := match HashStrVal(src, "cap")
               case Some(x) => CapOf(x)
               case _ => DefaultCap;
    Stroke(width, cap)
  }

  /** A layer's `stroke` option: parsed when it is a mapping, the default otherwise. */
  function FromLayer(src: Yaml): (s: Stroke)
    ensures HashVal(src, "stroke").None? ==> s == Default()
    ensures HashVal(src, "stroke").Some? ==> s == Parse(HashVal(src, "stroke").value)
  {
    match HashVal(src, "stroke")
    case Some(h) => Parse(h)
    case None => Default()
  }

  /** An empty mapping parses to the default stroke. */
  lemma ParseEmptyIsDefault()
    ensures Parse([]) == Default()
    ensures Default() == Stroke(1.0, Butt)
  {
  }

  /** The source's tests on widths: an integer and a float width, the cap left at its default. */
  lemma WidthExamples()
    ensures Parse([(Str("width"), Int(2))]) == Stroke(2.0, Butt)
    ensures Parse([(Str("width"), Real(2.5))]) == Stroke(2.5, Butt)
  {
    FieldNamesArePlain();
  }

  /** The source's tests on caps: each cap name, an unknown name and a non-string cap. */
  lemma CapExamples()
    ensures Parse([(Str("cap"), Str("butt"))]).cap == Butt
    ensures Parse([(Str("cap"), Str("round"))]).cap == Round
    ensures Parse([(Str("cap"), Str("square"))]).cap == Square
    ensures Parse([(Str("cap"), Str("invalid"))]).cap == Butt
    ensures Parse([(Str("cap"), Int(1))]).cap == Butt
  {
    FieldNamesArePlain();
  }
}
