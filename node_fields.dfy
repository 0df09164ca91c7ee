/**
 * The required-field idiom every node parser repeats: a numeric field read with
 * `f64_val`, its absence reported as `Required(node, field)`.
 */
module NodeFields {
  import opened Wrappers
  import opened YamlExt
  import opened NodeErrors

  /** `src.f64_val(field).ok_or_else(|| Required(node, field))`. */
  function RequiredNumber(src: Yaml, node: string, field: string): (r: Result<real, NodeError>)
    ensures r.Ok? <==> F64Val(src, field).Some?
    ensures r.Ok? ==> r.value == F64Val(src, field).value
    ensures r.Err? ==> r.error == Required(node, field)
  {
    match F64Val(src, field)
    case Some(v) => Ok(v)
    case None => Err(Required(node, field))
  }

}
