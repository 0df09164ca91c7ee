/** `Triangle::render` of claris-impl/src/renderer/triangle.rs. */
module TriangleRenderer {
  import opened Surfaces
  import opened Paint
  import opened Points
  import TriangleNode
  import PolygonNode
  import PolygonRenderer

  /** The three vertices in the order they are drawn. */
  function Corners(v: TriangleNode.Vertex): seq<Point> {
    [v.a, v.b, v.c]
  }

  /** The calls a triangle issues. */
  function Commands(n: TriangleNode.Triangle): seq<Cmd> {
    [Translate(0.0, 0.0)] + [Source(n.color)] + [ScaleBy(n.scale)]
    + [MoveTo(n.vertex.a.x, n.vertex.a.y)] + [LineTo(n.vertex.b.x, n.vertex.b.y)] + [LineTo(n.vertex.c.x, n.vertex.c.y)]
    + [ClosePath] + Finish(n.fill, n.stroke)
  }

  method Render(s: Surface, n: TriangleNode.Triangle)
    modifies s
    ensures s.trace == old(s.trace) + Commands(n)
  {
    s.Translate(0.0, 0.0);
    s.SetSourceRgba(n.color.r as real / 255.0, n.color.g as real / 255.0, n.color.b as real / 255.0, n.color.a);
    s.Scale(n.scale.x, n.scale.y);
    s.MoveTo(n.vertex.a.x, n.vertex.a.y);
    s.LineTo(n.vertex.b.x, n.vertex.b.y);
    s.LineTo(n.vertex.c.x, n.vertex.c.y);
    s.ClosePath();
    if n.fill {
      s.Fill();
    } else {
      s.SetLineWidth(n.stroke.width);
      s.SetLineCap(n.stroke.cap);
      s.Stroke();
    }
  }

  /** The polygon with the triangle's fill, colour, stroke and scale and its three vertices as the vertex list. */
  function AsPolygon(n: TriangleNode.Triangle): PolygonNode.Polygon {
    PolygonNode.Polygon(n.fill, n.color, n.stroke, n.scale, Corners(n.vertex))
  }

  /**
   * A triangle draws exactly what the polygon through its three vertices
   * draws: a closed path a, b, c, then fill or stroke.
   */
  lemma SameAsPolygon(n: TriangleNode.Triangle)
    ensures Commands(n) == PolygonRenderer.Commands(AsPolygon(n))
  {
    var ps := Corners(n.vertex);
    PathAt(ps);
    assert Path(ps) == [MoveTo(n.vertex.a.x, n.vertex.a.y), LineTo(n.vertex.b.x, n.vertex.b.y), LineTo(n.vertex.c.x, n.vertex.c.y)];
  }

  /**
   * The operations a triangle issues, in order: translate, colour, scale, one
   * `move_to` and two `line_to`s, the path closed, then fill or stroke; nothing else.
   */
  lemma Operations(n: TriangleNode.Triangle)
    ensures Ops(Commands(n)) ==
              [TranslateOp, SetSourceRgbaOp, ScaleOp, MoveToOp, LineToOp, LineToOp, ClosePathOp] + FinishOps(n.fill)
  {
    SameAsPolygon(n);
    PolygonRenderer.Operations(AsPolygon(n));
    assert PathOps(3) == [MoveToOp, LineToOp, LineToOp];
  }

  /** A triangle is filled or stroked, never both, and never saves or restores. */
  lemma Paints(n: TriangleNode.Triangle)
    ensures PaintsOnce(Commands(n))
  {
    Operations(n);
    PaintsAfter(Commands(n), [TranslateOp, SetSourceRgbaOp, ScaleOp, MoveToOp, LineToOp, LineToOp, ClosePathOp], n.fill);
  }
}
