/** `Curve::render` of claris-impl/src/renderer/curve.rs. */
module CurveRenderer {
  import opened Surfaces
  import opened Paint
  import opened Points
  import Colors
  import Strokes
  import Scales
  import CurveNode

  /** The one Bezier segment through the node's three control points. */
  function Segment(n: CurveNode.Curve): Cmd {
    CurveTo(n.start.x, n.start.y, n.mid.x, n.mid.y, n.end.x, n.end.y)
  }

  /** The calls a curve issues: it is always stroked, never filled. */
  function Commands(n: CurveNode.Curve): seq<Cmd> {
    [Translate(0.0, 0.0)] + [Source(n.color)] + [ScaleBy(n.scale)] + StrokeSettings(n.stroke)
    + [Segment(n)] + [Cmd.Stroke]
  }

  method Render(s: Surface, n: CurveNode.Curve)
    modifies s
    ensures s.trace == old(s.trace) + Commands(n)
  {
    s.Translate(0.0, 0.0);
    s.SetSourceRgba(n.color.r as real / 255.0, n.color.g as real / 255.0, n.color.b as real / 255.0, n.color.a);
    s.Scale(n.scale.x, n.scale.y);
    s.SetLineWidth(n.stroke.width);
    s.SetLineCap(n.stroke.cap);
    s.CurveTo(n.start.x, n.start.y, n.mid.x, n.mid.y, n.end.x, n.end.y);
    s.Stroke();
  }

  /**
   * The segment starts at `start`, bends towards `mid` and ends at `end`; it
   * comes after the stroke settings and just before the stroke.
   */
  lemma Order(n: CurveNode.Curve)
    ensures |Commands(n)| == 7
    ensures Commands(n)[3..5] == StrokeSettings(n.stroke)
    ensures Commands(n)[5].CurveTo? && Commands(n)[6] == Cmd.Stroke
    ensures Commands(n)[5].x1 == n.start.x && Commands(n)[5].y1 == n.start.y
    ensures Commands(n)[5].x2 == n.mid.x && Commands(n)[5].y2 == n.mid.y
    ensures Commands(n)[5].x3 == n.end.x && Commands(n)[5].y3 == n.end.y
  {
  }

  /** The operations a curve issues, in order; it never fills. */
  lemma Operations(n: CurveNode.Curve)
    ensures Ops(Commands(n)) == [TranslateOp, SetSourceRgbaOp, ScaleOp, SetLineWidthOp, SetLineCapOp, CurveToOp, StrokeOp]
  {
    assert Commands(n) == [Translate(0.0, 0.0), Source(n.color), ScaleBy(n.scale), SetLineWidth(n.stroke.width),
                           SetLineCap(n.stroke.cap), Segment(n), Cmd.Stroke];
  }

  /** The curve of the source's test helpers: black, unscaled, default stroke, all control points at the origin. */
  function DefaultNode(): CurveNode.Curve {
    CurveNode.Curve(Colors.Color(0, 0, 0, 1.0), Strokes.Default(), Scales.Default(),
                    Point(0.0, 0.0), Point(0.0, 0.0), Point(0.0, 0.0))
  }

  /** The source's rendering test: the default curve issues each of its seven operations once. */
  lemma DefaultCounts()
    ensures Tally(Commands(DefaultNode())) ==
              multiset{TranslateOp, SetSourceRgbaOp, ScaleOp, CurveToOp, SetLineWidthOp, SetLineCapOp, StrokeOp}
  {
    Operations(DefaultNode());
  }

  /** A curve is stroked once and never filled; it never saves or restores. */
  lemma Paints(n: CurveNode.Curve)
    ensures PaintsOnce(Commands(n))
  {
    Operations(n);
  }
}
