/** `Scale` of claris-impl/src/node/scale.rs: per-axis factors, each defaulting to 1. */
module Scales {
  import opened Wrappers
  import opened YamlExt

  datatype Scale = Scale(x: real, y: real)

  const DefaultScale: real := 1.0

  /** `Scale::default`. */
  function Default(): Scale {
    Scale(DefaultScale, DefaultScale)
  }

  /** `Scale::parse` on a mapping: each axis independently, numbers of either kind. */
  function Parse(src: Mapping): (s: Scale)
    ensures s.x == F64Val(Hash(src), "x").GetOr(1.0)
    ensures s.y == F64Val(Hash(src), "y").GetOr(1.0)
  {
    FieldNamesArePlain();
    var x := HashF64Val(src, "x").GetOr(DefaultScale);
    var y := HashF64Val(src, "y").GetOr(DefaultScale);
    Scale(x, y)
  }

  /** A layer's `scale` option: parsed when it is a mapping, the default otherwise. */
  function FromLayer(src: Yaml): (s: Scale)
    ensures HashVal(src, "scale").None? ==> s == Default()
    ensures HashVal(src, "scale").Some? ==> s == Parse(HashVal(src, "scale").value)
  {
    match HashVal(src, "scale")
    case Some(h) => Parse(h)
    case None => Default()
  }

  /** An absent axis is 1.0 whatever the other axis holds; a present one is read as a number. */
  lemma AxesIndependent(v: Yaml)
    ensures Parse([(Str("y"), v)]).x == 1.0
    ensures Parse([(Str("x"), v)]).y == 1.0
    ensures v.Int? ==> Parse([(Str("x"), v)]).x == v.i as real
    ensures v.Real? ==> Parse([(Str("y"), v)]).y == v.r
  {
    FieldNamesArePlain();
  }

  /** An empty mapping parses to the default scale {1, 1}. */
  lemma ParseEmptyIsDefault()
    ensures Parse([]) == Default() == Scale(1.0, 1.0)
  {
  }
}
