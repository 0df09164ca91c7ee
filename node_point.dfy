/** `Point` and `DefPoint::as_point` of claris-impl/src/node/point.rs. */
module Points {
  import opened Wrappers
  import opened YamlExt

  datatype Point = Point(x: real, y: real)

  /** A coordinate node: an integer or a real, nothing else (a quoted "10" is a string). */
  predicate IsCoordinate(y: Yaml) {
    y.Int? || y.Real?
  }

  /** The float a coordinate node stands for. */
  function CoordinateValue(y: Yaml): real
    requires IsCoordinate(y)
  {
    if y.Int? then y.i as real else y.r
  }

  /** `as_point` on the elements of an array (`impl DefPoint for Vec<Yaml>`). */
  function AsPointVec(v: seq<Yaml>): (r: Option<Point>)
    ensures r.Some? <==> |v| == 2 && IsCoordinate(v[0]) && IsCoordinate(v[1])
    ensures r.Some? ==> r.value == Point(CoordinateValue(v[0]), CoordinateValue(v[1]))
  {
    if |v| == 2 then
      var x :- match AsI64(v[0])
               case Some(x) => Some(x as real)
               case None => AsF64(v[0]);
      var y :- match AsI64(v[1])
               case Some(y) => Some(y as real)
               case None => AsF64(v[1]);
      Some(Point(x, y))
    else None
  }

  /** `as_point` on a node (`impl DefPoint for Yaml`): only a two-element array of numbers. */
  function AsPoint(node: Yaml): (r: Option<Point>)
    ensures r.Some? <==> node.Array? && |node.items| == 2 && IsCoordinate(node.items[0]) && IsCoordinate(node.items[1])
    ensures r.Some? ==> r.value == Point(CoordinateValue(node.items[0]), CoordinateValue(node.items[1]))
  {
    match node
    case Array(p) =>
      if |p| == 2 then
        var x :- match AsI64(p[0])
                 case Some(x) => Some(x as real)
                 case None => AsF64(p[0]);
        var y :- match AsI64(p[1])
                 case Some(y) => Some(y as real)
                 case None => AsF64(p[1]);
        Some(Point(x, y))
      else None
    case _ => None
  }

  /** The two implementations agree on the same elements. */
  lemma NodeAndVecAgree(v: seq<Yaml>)
    ensures AsPoint(Array(v)) == AsPointVec(v)
  {
  }

  /** The examples of the source's tests: integers, floats, a quoted number, three elements, a mapping. */
  lemma PointExamples()
    ensures AsPoint(Array([Int(10), Int(20)])) == Some(Point(10.0, 20.0))
    ensures AsPoint(Array([Real(10.1), Real(20.2)])) == Some(Point(10.1, 20.2))
    ensures AsPoint(Array([Str("10.1"), Real(20.2)])).None?
    ensures AsPoint(Array([Real(10.1), Str("20.2")])).None?
    ensures AsPoint(Array([Real(10.1), Real(20.2), Real(33.3)])).None?
    ensures AsPoint(Hash([])).None?
  {
  }

  /**
   * A list of point nodes read in order, failing with the first element that is
   * not a point: the value `parse_vertex` of a polygon and `parse_points` of a
   * line compute with their loops.
   */
  function PointList(v: seq<Yaml>): Option<seq<Point>>
  {
    if v == [] then Some([])
    else
      var init :- PointList(v[..|v| - 1]);
      var last :- AsPoint(v[|v| - 1]);
      Some(init + [last])
  }

  /** `PointList` succeeds exactly when every element is a point, and then keeps length and order. */
  lemma {:induction false} PointListSpec(v: seq<Yaml>)
    ensures PointList(v).Some? <==> forall i :: 0 <= i < |v| ==> AsPoint(v[i]).Some?
    ensures PointList(v).Some? ==> |PointList(v).value| == |v|
    ensures PointList(v).Some? ==> forall i :: 0 <= i < |v| ==> PointList(v).value[i] == AsPoint(v[i]).value
  {
    if v != [] {
      var init := v[..|v| - 1];
      PointListSpec(init);
      assert forall i :: 0 <= i < |init| ==> init[i] == v[i];
    }
  }
}
