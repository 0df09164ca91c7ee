/** `Line::render` of claris-impl/src/renderer/line.rs. */
module LineRenderer {
  import opened Surfaces
  import opened Paint
  import opened Points
  import Colors
  import Strokes
  import Scales
  import LineNode

  /** What a line issues before its path: no translation, colour, scale and the stroke settings. */
  function Head(n: LineNode.Line): seq<Cmd> {
    [Translate(0.0, 0.0), Source(n.color), ScaleBy(n.scale)] + StrokeSettings(n.stroke)
  }

  /** The calls a line issues: it is always stroked, never filled or closed. */
  function Commands(n: LineNode.Line): seq<Cmd> {
    Head(n) + Path(n.points) + [Cmd.Stroke]
  }

  method Render(s: Surface, n: LineNode.Line)
    modifies s
    ensures s.trace == old(s.trace) + Commands(n)
  {
    s.Translate(0.0, 0.0);
    s.SetSourceRgba(n.color.r as real / 255.0, n.color.g as real / 255.0, n.color.b as real / 255.0, n.color.a);
    s.Scale(n.scale.x, n.scale.y);
    s.SetLineWidth(n.stroke.width);
    s.SetLineCap(n.stroke.cap);
    var i := 0;
    while i < |n.points|
      invariant 0 <= i <= |n.points|
      invariant s.trace == old(s.trace) + Head(n) + Path(n.points[..i])
    {
      var point := n.points[i];
      if i == 0 {
        s.MoveTo(point.x, point.y);
      } else {
        s.LineTo(point.x, point.y);
      }
      PathExtend(n.points, i);
      i := i + 1;
    }
    assert n.points[..i] == n.points;
    s.Stroke();
  }

  /**
   * The operations a line issues, in order: translate, colour, scale, line
   * width and cap, a `move_to` to the first point and a `line_to` to each
   * later one, then one stroke; nothing else.
   */
  lemma Operations(n: LineNode.Line)
    ensures Ops(Commands(n)) ==
              [TranslateOp, SetSourceRgbaOp, ScaleOp, SetLineWidthOp, SetLineCapOp] + PathOps(|n.points|) + [StrokeOp]
  {
    var path := Path(n.points);
    PathOperations(n.points);
    assert Ops(Head(n)) == [TranslateOp, SetSourceRgbaOp, ScaleOp, SetLineWidthOp, SetLineCapOp];
    OpsConcat(Head(n), path);
    OpsConcat(Head(n) + path, [Cmd.Stroke]);
  }

  /** The points are visited in order: the call after the stroke settings for point i goes to that point. */
  lemma VisitsPoints(n: LineNode.Line)
    ensures |Commands(n)| == |n.points| + 6
    ensures forall i :: 0 <= i < |n.points| ==> Commands(n)[5 + i] == PathStep(i, n.points[i])
    ensures Commands(n)[|n.points| + 5] == Cmd.Stroke
  {
    PathAt(n.points);
  }

  /** The line of the source's test helpers: black, unscaled, default stroke, three points at the origin. */
  function DefaultNode(): LineNode.Line {
    LineNode.Line(Colors.Color(0, 0, 0, 1.0), Strokes.Default(), Scales.Default(),
                  [Point(0.0, 0.0), Point(0.0, 0.0), Point(0.0, 0.0)])
  }

  /**
   * The source's rendering test: the default line issues one translate, one
   * colour, one scale, one `move_to`, two `line_to`s, one line width, one line
   * cap and one stroke, and nothing else.
   */
  lemma DefaultCounts()
    ensures Tally(Commands(DefaultNode())) ==
              multiset{TranslateOp, SetSourceRgbaOp, ScaleOp, MoveToOp, LineToOp, LineToOp, SetLineWidthOp, SetLineCapOp, StrokeOp}
  {
    Operations(DefaultNode());
    assert PathOps(3) == [MoveToOp, LineToOp, LineToOp];
  }

  /** A line is stroked once and never filled; it never saves or restores. */
  lemma Paints(n: LineNode.Line)
    ensures PaintsOnce(Commands(n))
  {
    Operations(n);
    PathOnlyMoves(n.points);
  }
}
