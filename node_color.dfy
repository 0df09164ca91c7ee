/**
 * `Color` of claris-impl/src/node/color.rs: 8-bit channels and a straight alpha
 * in [0, 1], coerced to opaque when out of range.
 */
module Colors {
  import opened Wrappers
  import opened NodeErrors
  import opened YamlExt

  newtype byte = x: int | 0 <= x < 256

  datatype Color = Color(r: byte, g: byte, b: byte, a: real)

  const DefaultAlpha: real := 1.0

  predicate ValidAlpha(a: real) {
    0.0 <= a <= 1.0
  }

  /** `Color::new`: channels kept, an alpha outside [0, 1] replaced by 1.0. */
  function New(r: byte, g: byte, b: byte, a: real): (c: Color)
    ensures c.r == r && c.g == g && c.b == b
    ensures ValidAlpha(c.a)
    ensures c.a == a <==> ValidAlpha(a)
    ensures !ValidAlpha(a) ==> c.a == DefaultAlpha
  {
    Color(r, g, b, if a >= 0.0 && a <= 1.0 then a else DefaultAlpha)
  }

  // ---- the CSS colour syntax, restricted to `#rrggbb` ----

  /** What the CSS colour parser yields: channels and its own alpha. */
  datatype CssColor = CssColor(r: byte, g: byte, b: byte, a: real)

  function HexValue(c: char): (r: Option<nat>)
    ensures r.Some? ==> r.value < 16
  {
    if '0' <= c <= '9' then Some(c as int - '0' as int)
    else if 'a' <= c <= 'f' then Some(c as int - 'a' as int + 10)
    else if 'A' <= c <= 'F' then Some(c as int - 'A' as int + 10)
    else None
  }

  function HexPair(hi: char, lo: char): (r: Option<byte>)
  {
    var h :- HexValue(hi);
    var l :- HexValue(lo);
    Some((h * 16 + l) as byte)
  }

  /** `#rrggbb` in either letter case, opaque. */
  function CssParse(s: string): Option<CssColor> {
    if |s| == 7 && s[0] == '#' then
      var r :- HexPair(s[1], s[2]);
      var g :- HexPair(s[3], s[4]);
      var b :- HexPair(s[5], s[6]);
      Some(CssColor(r, g, b, 1.0))
    else None
  }

  /** `Color::parse`: a failure carries the original text; a success goes through `New`. */
  function Parse(src: string): (r: Result<Color, NodeError>)
    ensures r.Err? <==> CssParse(src).None?
    ensures r.Err? ==> r.error == InvalidColor(src)
    ensures r.Ok? ==> ValidAlpha(r.value.a)
    ensures r.Ok? ==> var c := CssParse(src).value; r.value.r == c.r && r.value.g == c.g && r.value.b == c.b
    ensures r.Ok? ==> var c := CssParse(src).value; r.value == New(c.r, c.g, c.b, c.a)
  {
    match CssParse(src)
    case Some(x) => Ok(New(x.r, x.g, x.b, x.a))
    case None => Err(InvalidColor(src))
  }

  // ---- formatting, the partner of parsing ----

  const HexDigits: string := "0123456789ABCDEF"

  function HexByte(v: byte): string {
    [HexDigits[v as int / 16], HexDigits[v as int % 16]]
  }

  /** A colour written as `#RRGGBB`. */
  function ToHex(r: byte, g: byte, b: byte): string {
    "#" + HexByte(r) + HexByte(g) + HexByte(b)
  }

  lemma HexDigitRoundTrip(n: nat)
    requires n < 16
    ensures HexValue(HexDigits[n]) == Some(n)
  {
  }

  lemma HexByteRoundTrip(v: byte)
    ensures HexPair(HexByte(v)[0], HexByte(v)[1]) == Some(v)
  {
    HexDigitRoundTrip(v as int / 16);
    HexDigitRoundTrip(v as int % 16);
  }

  /** Parsing a formatted colour gives back its channels, opaque. */
  lemma ParseToHex(r: byte, g: byte, b: byte)
    ensures Parse(ToHex(r, g, b)) == Ok(Color(r, g, b, 1.0))
  {
    var s := ToHex(r, g, b);
    HexByteRoundTrip(r);
    HexByteRoundTrip(g);
    HexByteRoundTrip(b);
    assert s[1] == HexByte(r)[0] && s[2] == HexByte(r)[1];
    assert s[3] == HexByte(g)[0] && s[4] == HexByte(g)[1];
    assert s[5] == HexByte(b)[0] && s[6] == HexByte(b)[1];
  }

  /** The source's tests: "#AABBCC" is (170, 187, 204, 1.0), "#AABBCG" is rejected with its text. */
  lemma ParseExamples()
    ensures Parse("#AABBCC") == Ok(Color(170, 187, 204, 1.0))
    ensures Parse("#AABBCG") == Err(InvalidColor("#AABBCG"))
    ensures Message(Parse("#AABBCG").error) == "invalid color format '#AABBCG'"
  {
    assert ToHex(170, 187, 204) == "#AABBCC";
    ParseToHex(170, 187, 204);
  }

  // ---- a layer's `color` and `alpha` options ----

  /** The `alpha` option of a layer, or the layer's default. */
  function AlphaOption(src: Yaml, default: real): real {
    F32Val(src, "alpha").GetOr(default)
  }

  /**
   * The colour of a layer: `color` is required and must parse; its RGB is kept
   * and the layer's `alpha` replaces the colour's own alpha (through `New`).
   */
  function LayerColor(src: Yaml, node: string, alpha: real): (r: Result<Color, NodeError>)
    ensures StringVal(src, "color").None? ==> r == Err(Required(node, "color"))
    ensures StringVal(src, "color").Some? && CssParse(StringVal(src, "color").value).None? ==>
              r == Err(InvalidColor(StringVal(src, "color").value))
    ensures r.Ok? <==> StringVal(src, "color").Some? && CssParse(StringVal(src, "color").value).Some?
    ensures r.Ok? ==> var c := CssParse(StringVal(src, "color").value).value;
                      r.value.r == c.r && r.value.g == c.g && r.value.b == c.b
    ensures r.Ok? ==> ValidAlpha(r.value.a) && (r.value.a == alpha <==> ValidAlpha(alpha))
    ensures r.Ok? ==> var c := CssParse(StringVal(src, "color").value).value; r.value == New(c.r, c.g, c.b, alpha)
  {
    var s :- match StringVal(src, "color")
             case Some(s) => Ok(s)
             case None => Err(Required(node, "color"));
    var c :- Parse(s);
    Ok(New(c.r, c.g, c.b, alpha))
  }
}
