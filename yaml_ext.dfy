/**
 * The generic YAML tree the loader hands to the core, and the typed accessors
 * of claris-impl/src/ext/yaml.rs (trait `YamlExt`), once for a `Yaml` node and
 * once for a bare mapping (`Hash`).
 */
module YamlExt {
  import opened Wrappers

  /**
   * A parsed YAML node. `Hash` is the loader's insertion-ordered map, kept as an
   * association list; the loader never produces two entries with the same key.
   * `Real` carries the number the node's text denotes.
   */
  datatype Yaml =
    | Real(r: real)
    | Int(i: int)
    | Str(s: string)
    | Bool(b: bool)
    | Array(items: seq<Yaml>)
    | Hash(entries: Mapping)
    | Null
    | BadValue

  type Mapping = seq<(Yaml, Yaml)>

  /** The value stored under key `k`, if any (first entry with that key). */
  function Lookup(h: Mapping, k: Yaml): (r: Option<Yaml>)
    ensures r.Some? <==> exists i :: 0 <= i < |h| && h[i].0 == k
    ensures r.Some? ==> exists i :: 0 <= i < |h| && h[i] == (k, r.value)
  {
    if h == [] then None
    else if h[0].0 == k then Some(h[0].1)
    else
      var r := Lookup(h[1..], k);
      assert forall i :: 1 <= i < |h| ==> h[i] == h[1..][i - 1];
      r
  }

  /** `yaml[key]`: the entry of a mapping under the string key, `BadValue` otherwise. */
  function Index(src: Yaml, key: string): Yaml {
    match src
    case Hash(h) => Lookup(h, Str(key)).GetOr(BadValue)
    case _ => BadValue
  }

  // ---- the scalar views of yaml_rust ----

  function AsI64(y: Yaml): Option<int> {
    if y.Int? then Some(y.i) else None
  }

  function AsF64(y: Yaml): Option<real> {
    if y.Real? then Some(y.r) else None
  }

  function AsBool(y: Yaml): Option<bool> {
    if y.Bool? then Some(y.b) else None
  }

  /** An integer node read as the equal float, else a real node's value. */
  function AsNumber(y: Yaml): (r: Option<real>)
    ensures r.Some? <==> y.Int? || y.Real?
    ensures y.Int? ==> r == Some(y.i as real)
    ensures y.Real? ==> r == Some(y.r)
  {
    match AsI64(y)
    case Some(x) => Some(x as real)
    case None => AsF64(y)
  }

  /** Rust's `i64 as i32`: keep the low 32 bits, two's complement. */
  function Wrap32(x: int): (r: int)
    ensures -0x8000_0000 <= r < 0x8000_0000
    ensures -0x8000_0000 <= x < 0x8000_0000 ==> r == x
    ensures (r - x) % 0x1_0000_0000 == 0
  {
    (x + 0x8000_0000) % 0x1_0000_0000 - 0x8000_0000
  }

  // ---- YamlExt for Yaml ----

  function F64Val(src: Yaml, key: string): (r: Option<real>)
    ensures r.Some? <==> Index(src, key).Int? || Index(src, key).Real?
    ensures Index(src, key).Int? ==> r == Some(Index(src, key).i as real)
    ensures Index(src, key).Real? ==> r == Some(Index(src, key).r)
  {
    match AsI64(Index(src, key))
    case Some(x) => Some(x as real)
    case None =>
      match AsF64(Index(src, key))
      case Some(x) => Some(x)
      case None => None
  }

  /** `f64_val` narrowed to single precision (the narrowing keeps the value here). */
  function F32Val(src: Yaml, key: string): (r: Option<real>)
    ensures r.None? <==> F64Val(src, key).None?
    ensures r.Some? ==> r.value == F64Val(src, key).value
  {
    match F64Val(src, key)
    case Some(x) => Some(x)
    case None => None
  }

  function I64Val(src: Yaml, key: string): (r: Option<int>)
    ensures r.Some? <==> Index(src, key).Int?
    ensures r.Some? ==> r.value == Index(src, key).i
  {
    AsI64(Index(src, key))
  }

  function I32Val(src: Yaml, key: string): (r: Option<int>)
    ensures r.Some? <==> Index(src, key).Int?
    ensures r.Some? ==> -0x8000_0000 <= r.value < 0x8000_0000
    ensures r.Some? && -0x8000_0000 <= Index(src, key).i < 0x8000_0000 ==> r.value == Index(src, key).i
  {
    match I64Val(src, key)
    case Some(x) => Some(Wrap32(x))
    case None => None
  }

  function BoolVal(src: Yaml, key: string): (r: Option<bool>)
    ensures r.Some? <==> Index(src, key).Bool?
    ensures r.Some? ==> r.value == Index(src, key).b
  {
    AsBool(Index(src, key))
  }

  function StrVal(src: Yaml, key: string): (r: Option<string>)
    ensures r.Some? <==> Index(src, key).Str?
    ensures r.Some? ==> r.value == Index(src, key).s
  {
    match Index(src, key)
    case Str(x) => Some(x)
    case _ => None
  }

  /** An owned copy of `str_val`; in the model the two coincide. */
  function StringVal(src: Yaml, key: string): (r: Option<string>)
    ensures r == StrVal(src, key)
  {
    match Index(src, key)
    case Str(x) => Some(x)
    case _ => None
  }

  function ArrayVal(src: Yaml, key: string): (r: Option<seq<Yaml>>)
    ensures r.Some? <==> Index(src, key).Array?
    ensures r.Some? ==> r.value == Index(src, key).items
  {
    match Index(src, key)
    case Array(x) => Some(x)
    case _ => None
  }

  function HashVal(src: Yaml, key: string): (r: Option<Mapping>)
    ensures r.Some? <==> Index(src, key).Hash?
    ensures r.Some? ==> r.value == Index(src, key).entries
  {
    match Index(src, key)
    case Hash(x) => Some(x)
    case _ => None
  }

  /** Always present: the stored value, or `BadValue` for an absent key or a non-mapping. */
  function Entry(src: Yaml, key: string): (r: Option<Yaml>)
    ensures r.Some?
    ensures src.Hash? && Lookup(src.entries, Str(key)).Some? ==> r == Some(Lookup(src.entries, Str(key)).value)
    ensures src.Hash? && Lookup(src.entries, Str(key)).None? ==> r == Some(BadValue)
    ensures !src.Hash? ==> r == Some(BadValue)
  {
    Some(Index(src, key))
  }

  // ---- YamlExt for Hash ----

  predicate IsDigit(c: char) {
    '0' <= c <= '9'
  }

  predicate AllDigits(s: string) {
    forall i :: 0 <= i < |s| ==> IsDigit(s[i])
  }

  function DigitsValue(s: string): nat
    requires AllDigits(s)
  {
    if s == [] then 0
    else DigitsValue(s[..|s| - 1]) * 10 + (s[|s| - 1] as int - '0' as int)
  }

  /**
   * `Yaml::from_str`: how the mapping accessors turn a key into a node before
   * looking it up. Null, boolean and signed decimal integer spellings become
   * those scalars; everything else stays a string.
   */
  function FromStr(v: string): Yaml {
    if v == "~" || v == "null" then Null
    else if v == "true" then Bool(true)
    else if v == "false" then Bool(false)
    else if |v| > 0 && AllDigits(v) then Int(DigitsValue(v))
    else if |v| > 1 && v[0] == '+' && AllDigits(v[1..]) then Int(DigitsValue(v[1..]))
    else if |v| > 1 && v[0] == '-' && AllDigits(v[1..]) then Int(-(DigitsValue(v[1..]) as int))
    else Str(v)
  }

  /** A key whose text does not read as another scalar is looked up as that string. */
  predicate PlainKey(key: string) {
    FromStr(key) == Str(key)
  }

  function HashF64Val(h: Mapping, key: string): (r: Option<real>)
    ensures Lookup(h, FromStr(key)).None? ==> r.None?
    ensures Lookup(h, FromStr(key)).Some? ==> r == AsNumber(Lookup(h, FromStr(key)).value)
    ensures PlainKey(key) ==> r == F64Val(Hash(h), key)
  {
    var k := FromStr(key);
    if Lookup(h, k).Some? then
      match AsI64(Lookup(h, k).value)
      case Some(x) => Some(x as real)
      case None =>
        match AsF64(Lookup(h, k).value)
        case Some(x) => Some(x)
        case None => None
    else None
  }

  function HashF32Val(h: Mapping, key: string): (r: Option<real>)
    ensures r.None? <==> HashF64Val(h, key).None?
    ensures r.Some? ==> r.value == HashF64Val(h, key).value
  {
    match HashF64Val(h, key)
    case Some(x) => Some(x)
    case None => None
  }

  function HashI64Val(h: Mapping, key: string): (r: Option<int>)
    ensures Lookup(h, FromStr(key)).None? ==> r.None?
    ensures Lookup(h, FromStr(key)).Some? ==> r == AsI64(Lookup(h, FromStr(key)).value)
    ensures PlainKey(key) ==> r == I64Val(Hash(h), key)
  {
    var k := FromStr(key);
    if Lookup(h, k).Some? then AsI64(Lookup(h, k).value) else None
  }

  function HashI32Val(h: Mapping, key: string): (r: Option<int>)
    ensures r.None? <==> HashI64Val(h, key).None?
    ensures r.Some? ==> r.value == Wrap32(HashI64Val(h, key).value)
  {
    match HashI64Val(h, key)
    case Some(x) => Some(Wrap32(x))
    case None => None
  }

  function HashBoolVal(h: Mapping, key: string): (r: Option<bool>)
    ensures Lookup(h, FromStr(key)).None? ==> r.None?
    ensures Lookup(h, FromStr(key)).Some? ==> r == AsBool(Lookup(h, FromStr(key)).value)
    ensures PlainKey(key) ==> r == BoolVal(Hash(h), key)
  {
    var k := FromStr(key);
    if Lookup(h, k).Some? then AsBool(Lookup(h, k).value) else None
  }

  function HashStrVal(h: Mapping, key: string): (r: Option<string>)
    ensures Lookup(h, FromStr(key)).None? ==> r.None?
    ensures Lookup(h, FromStr(key)).Some? ==> (r.Some? <==> Lookup(h, FromStr(key)).value.Str?)
    ensures r.Some? ==> r.value == Lookup(h, FromStr(key)).value.s
    ensures PlainKey(key) ==> r == StrVal(Hash(h), key)
  {
    var k := FromStr(key);
    if Lookup(h, k).Some? then
      match Lookup(h, k).value
      case Str(x) => Some(x)
      case _ => None
    else None
  }

  function HashStringVal(h: Mapping, key: string): (r: Option<string>)
    ensures r == HashStrVal(h, key)
  {
    var k := FromStr(key);
    if Lookup(h, k).Some? then
      match Lookup(h, k).value
      case Str(x) => Some(x)
      case _ => None
    else None
  }

  function HashArrayVal(h: Mapping, key: string): (r: Option<seq<Yaml>>)
    ensures Lookup(h, FromStr(key)).None? ==> r.None?
    ensures Lookup(h, FromStr(key)).Some? ==> (r.Some? <==> Lookup(h, FromStr(key)).value.Array?)
    ensures r.Some? ==> r.value == Lookup(h, FromStr(key)).value.items
    ensures PlainKey(key) ==> r == ArrayVal(Hash(h), key)
  {
    var k := FromStr(key);
    if Lookup(h, k).Some? then
      match Lookup(h, k).value
      case Array(x) => Some(x)
      case _ => None
    else None
  }

  function HashHashVal(h: Mapping, key: string): (r: Option<Mapping>)
    ensures Lookup(h, FromStr(key)).None? ==> r.None?
    ensures Lookup(h, FromStr(key)).Some? ==> (r.Some? <==> Lookup(h, FromStr(key)).value.Hash?)
    ensures r.Some? ==> r.value == Lookup(h, FromStr(key)).value.entries
    ensures PlainKey(key) ==> r == HashVal(Hash(h), key)
  {
    var k := FromStr(key);
    if Lookup(h, k).Some? then
      match Lookup(h, k).value
      case Hash(x) => Some(x)
      case _ => None
    else None
  }

  /** Unlike `Entry` on a node, an absent key gives `None`. */
  function HashEntry(h: Mapping, key: string): (r: Option<Yaml>)
    ensures r.None? <==> Lookup(h, FromStr(key)).None?
    ensures r.Some? ==> r == Lookup(h, FromStr(key))
  {
    var k := FromStr(key);
    if Lookup(h, k).Some? then Some(Lookup(h, k).value) else None
  }

  // ---- properties ----

  /** Every accessor on a node that is not a mapping finds nothing, except `Entry`. */
  lemma NonMappingHasNoFields(src: Yaml, key: string)
    requires !src.Hash?
    ensures F64Val(src, key).None? && I64Val(src, key).None? && I32Val(src, key).None?
    ensures BoolVal(src, key).None? && StrVal(src, key).None?
    ensures ArrayVal(src, key).None? && HashVal(src, key).None?
    ensures Entry(src, key) == Some(BadValue)
  {
  }

  /** Values are not coerced across kinds: a string "10" is no number, a number no string. */
  lemma NoCoercion(key: string)
    ensures F64Val(Hash([(Str(key), Str("10"))]), key).None?
    ensures I64Val(Hash([(Str(key), Real(1.5))]), key).None?
    ensures StrVal(Hash([(Str(key), Int(10))]), key).None?
    ensures StrVal(Hash([(Str(key), Bool(true))]), key).None?
    ensures F64Val(Hash([(Str(key), Int(10))]), key) == Some(10.0)
  {
  }

  /** Every field name the node parsers use is looked up as itself by the mapping accessors. */
  lemma FieldNamesArePlain()
    ensures PlainKey("width") && PlainKey("cap") && PlainKey("x") && PlainKey("y")
  {
  }

  /** A decimal key such as "12" is looked up as the integer 12, not as the string. */
  lemma NumericKeyIsNotPlain()
    ensures FromStr("12") == Int(12)
    ensures !PlainKey("12")
  {
    assert AllDigits("12");
    assert "12"[..1] == "1" && "1"[..0] == "";
    assert DigitsValue("1") == 1;
    assert DigitsValue("12") == 12;
  }
}
