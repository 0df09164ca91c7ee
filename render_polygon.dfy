/** `Polygon::render` of claris-impl/src/renderer/polygon.rs. */
module PolygonRenderer {
  import opened Surfaces
  import opened Paint
  import opened Points
  import PolygonNode

  /** What a polygon issues before its path: no translation, then colour and scale. */
  function Head(n: PolygonNode.Polygon): seq<Cmd> {
    [Translate(0.0, 0.0), Source(n.color), ScaleBy(n.scale)]
  }

  /** The calls a polygon issues. */
  function Commands(n: PolygonNode.Polygon): seq<Cmd> {
    Head(n) + Path(n.vertex) + [ClosePath] + Finish(n.fill, n.stroke)
  }

  method Render(s: Surface, n: PolygonNode.Polygon)
    modifies s
    ensures s.trace == old(s.trace) + Commands(n)
  {
    s.Translate(0.0, 0.0);
    s.SetSourceRgba(n.color.r as real / 255.0, n.color.g as real / 255.0, n.color.b as real / 255.0, n.color.a);
    s.Scale(n.scale.x, n.scale.y);
    var i := 0;
    while i < |n.vertex|
      invariant 0 <= i <= |n.vertex|
      invariant s.trace == old(s.trace) + Head(n) + Path(n.vertex[..i])
    {
      var point := n.vertex[i];
      if i == 0 {
        s.MoveTo(point.x, point.y);
      } else {
        s.LineTo(point.x, point.y);
      }
      PathExtend(n.vertex, i);
      i := i + 1;
    }
    assert n.vertex[..i] == n.vertex;
    s.ClosePath();
    if n.fill {
      s.Fill();
    } else {
      s.SetLineWidth(n.stroke.width);
      s.SetLineCap(n.stroke.cap);
      s.Stroke();
    }
  }

  /**
   * The operations a polygon issues, in order: translate, colour, scale, a
   * `move_to` to the first vertex and a `line_to` to each later one, the path
   * closed, then fill or stroke; nothing else.
   */
  lemma Operations(n: PolygonNode.Polygon)
    ensures Ops(Commands(n)) == [TranslateOp, SetSourceRgbaOp, ScaleOp] + PathOps(|n.vertex|) + [ClosePathOp] + FinishOps(n.fill)
  {
    var path := Path(n.vertex);
    PathOperations(n.vertex);
    FinishExclusive(n.fill, n.stroke);
    OpsConcat(Head(n), path);
    OpsConcat(Head(n) + path, [ClosePath]);
    OpsConcat(Head(n) + path + [ClosePath], Finish(n.fill, n.stroke));
  }

  /** The vertices are visited in order: the call after colour and scale for vertex i goes to that vertex. */
  lemma VisitsVertices(n: PolygonNode.Polygon)
    ensures |Commands(n)| >= |n.vertex| + 5
    ensures forall i :: 0 <= i < |n.vertex| ==> Commands(n)[3 + i] == PathStep(i, n.vertex[i])
    ensures Commands(n)[3 + |n.vertex|] == ClosePath
  {
    PathAt(n.vertex);
  }

  /** With n vertices, n >= 1, a polygon draws one `move_to` and n - 1 `line_to`s; an empty one draws neither. */
  lemma PathCounts(n: PolygonNode.Polygon)
    ensures Count(Commands(n), MoveToOp) == if |n.vertex| == 0 then 0 else 1
    ensures Count(Commands(n), LineToOp) == if |n.vertex| == 0 then 0 else |n.vertex| - 1
  {
    Operations(n);
    var head := [TranslateOp, SetSourceRgbaOp, ScaleOp];
    var tail := [ClosePathOp] + FinishOps(n.fill);
    PathCountsAmong(Ops(Commands(n)), head, |n.vertex|, tail);
  }

  /** A polygon is filled or stroked, never both, and never saves or restores. */
  lemma Paints(n: PolygonNode.Polygon)
    ensures PaintsOnce(Commands(n))
  {
    Operations(n);
    PaintsAfter(Commands(n), [TranslateOp, SetSourceRgbaOp, ScaleOp] + PathOps(|n.vertex|) + [ClosePathOp], n.fill);
  }
}
