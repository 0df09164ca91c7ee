/**
 * The pieces every renderer of claris-impl/src/renderer/ repeats: the colour
 * handed to the surface, the scale, the fill-or-stroke ending, the path through
 * a list of points, and the degree-to-radian factor.
 */
module Paint {
  import opened Surfaces
  import Colors
  import Strokes
  import Scales
  import opened Points

  /** `std::f64::consts::PI`, to the digits of its decimal literal. */
  const Pi: real := 3.141592653589793

  /** Degrees to radians, as the arc renderers compute it: `d * (PI / 180)`. */
  function DegToRad(d: real): real {
    d * (Pi / 180.0)
  }

  /** The colour as the surface takes it: each channel divided by 255, the alpha unchanged. */
  function Source(c: Colors.Color): (cmd: Cmd)
  {
    SetSourceRgba(c.r as real / 255.0, c.g as real / 255.0, c.b as real / 255.0, c.a)
  }

  /** A layer's scale factors as a surface call. */
  function ScaleBy(s: Scales.Scale): Cmd {
    Cmd.Scale(s.x, s.y)
  }

  /**
   * The shape of every layer's calls: they open with a translation, never save
   * or restore, and paint exactly once, with a fill or a stroke as the very
   * last call.
   */
  predicate PaintsOnce(t: seq<Cmd>) {
    var ops := Ops(t);
    |ops| > 0 && ops[0] == TranslateOp
    && SaveOp !in ops && RestoreOp !in ops
    && (ops[|ops| - 1] == FillOp || ops[|ops| - 1] == StrokeOp)
    && FillOp !in ops[..|ops| - 1] && StrokeOp !in ops[..|ops| - 1]
  }

  /**
   * Calls whose operations are a head that opens with a translation and
   * neither saves, restores nor paints, followed by the fill-or-stroke
   * ending, paint exactly once.
   */
  lemma PaintsAfter(t: seq<Cmd>, head: seq<Op>, fill: bool)
    requires Ops(t) == head + FinishOps(fill)
    requires |head| > 0 && head[0] == TranslateOp
    requires SaveOp !in head && RestoreOp !in head && FillOp !in head && StrokeOp !in head
    ensures PaintsOnce(t)
  {
    var ops := Ops(t);
    if fill {
      assert ops[..|ops| - 1] == head;
    } else {
      assert ops[..|ops| - 1] == head + [SetLineWidthOp, SetLineCapOp];
    }
  }

  /** The stroke settings: line width, then line cap. */
  function StrokeSettings(s: Strokes.Stroke): seq<Cmd> {
    [SetLineWidth(s.width)] + [SetLineCap(s.cap)]
  }

  /** The ending of a filled shape: a fill, or the stroke settings and a stroke. */
  function Finish(fill: bool, s: Strokes.Stroke): seq<Cmd> {
    if fill then [Fill] else StrokeSettings(s) + [Cmd.Stroke]
  }

  /** The operations ending a shape: a fill alone, or line width, line cap and stroke. */
  function FinishOps(fill: bool): seq<Op> {
    if fill then [FillOp] else [SetLineWidthOp, SetLineCapOp, StrokeOp]
  }

  /**
   * Fill and stroke exclude each other: a fill alone, or the line width, the
   * line cap and a stroke, in that order.
   */
  lemma FinishExclusive(fill: bool, s: Strokes.Stroke)
    ensures fill ==> Finish(fill, s) == [Fill]
    ensures !fill ==> Finish(fill, s) == [SetLineWidth(s.width), SetLineCap(s.cap), Cmd.Stroke]
    ensures Ops(Finish(fill, s)) == FinishOps(fill)
  {
    if !fill {
      assert Finish(fill, s) == [SetLineWidth(s.width), SetLineCap(s.cap), Cmd.Stroke];
    }
  }

  /** The call for the `i`-th point of a path: move to the first, line to every later one. */
  function PathStep(i: nat, p: Point): Cmd {
    if i == 0 then MoveTo(p.x, p.y) else LineTo(p.x, p.y)
  }

  /** The path through a list of points, one call per point. */
  function Path(ps: seq<Point>): seq<Cmd> {
    if ps == [] then []
    else Path(ps[..|ps| - 1]) + [PathStep(|ps| - 1, ps[|ps| - 1])]
  }

  /** One call per point, in order: a `move_to` for the first and a `line_to` for each later one. */
  lemma {:induction false} PathAt(ps: seq<Point>)
    ensures |Path(ps)| == |ps|
    ensures forall i :: 0 <= i < |ps| ==> Path(ps)[i] == PathStep(i, ps[i])
  {
    if ps != [] {
      var init := ps[..|ps| - 1];
      PathAt(init);
      assert forall i :: 0 <= i < |init| ==> init[i] == ps[i];
    }
  }

  /** Appending the call for one more point extends the path by that point. */
  lemma PathExtend(ps: seq<Point>, i: nat)
    requires i < |ps|
    ensures Path(ps[..i + 1]) == Path(ps[..i]) + [PathStep(i, ps[i])]
  {
    assert ps[..i + 1][..i] == ps[..i];
  }

  /** The operations of a path through `k` points: a `move_to`, then `line_to`s. */
  function PathOps(k: nat): seq<Op> {
    seq(k, i => if i == 0 then MoveToOp else LineToOp)
  }

  /** A path issues one operation per point: `move_to` for the first point, `line_to` for every later one. */
  lemma PathOperations(ps: seq<Point>)
    ensures Ops(Path(ps)) == PathOps(|ps|)
  {
    PathAt(ps);
  }

  /** A path of k >= 1 points has one `move_to` and k - 1 `line_to`s and nothing else; an empty one is empty. */
  lemma {:induction false} PathOpsTally(k: nat)
    ensures multiset(PathOps(k)) == if k == 0 then multiset{} else multiset{MoveToOp}[LineToOp := k - 1]
  {
    if k == 1 {
      assert PathOps(k) == [MoveToOp];
    } else if k > 1 {
      PathOpsTally(k - 1);
      assert PathOps(k) == PathOps(k - 1) + [LineToOp];
      assert multiset{MoveToOp}[LineToOp := k - 2] + multiset{LineToOp} == multiset{MoveToOp}[LineToOp := k - 1];
    }
  }

  /** A path never saves, restores, fills or strokes. */
  lemma PathOnlyMoves(ps: seq<Point>)
    ensures forall op :: op in Ops(Path(ps)) ==> op == MoveToOp || op == LineToOp
  {
    PathOperations(ps);
  }

  /** A path among calls that draw no segments of their own: its counts are the whole trace's. */
  lemma PathCountsAmong(ops: seq<Op>, head: seq<Op>, k: nat, tail: seq<Op>)
    requires ops == head + PathOps(k) + tail
    requires MoveToOp !in head && LineToOp !in head && MoveToOp !in tail && LineToOp !in tail
    ensures multiset(ops)[MoveToOp] == if k == 0 then 0 else 1
    ensures multiset(ops)[LineToOp] == if k == 0 then 0 else k - 1
  {
    PathOpsTally(k);
    assert multiset(ops) == multiset(head) + multiset(PathOps(k)) + multiset(tail);
  }
}
