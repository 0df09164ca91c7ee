/** `Arc::render` of claris-impl/src/renderer/arc.rs. */
module ArcRenderer {
  import opened Surfaces
  import opened Paint
  import ArcNode

  /** The calls issued only for a closed arc: `call` when `close` holds, nothing otherwise. */
  function IfClosed(close: bool, call: Cmd): seq<Cmd> {
    if close then [call] else []
  }

  /** The arc itself, at the origin, its angles converted from degrees. */
  function Sweep(n: ArcNode.Arc): Cmd {
    Cmd.Arc(0.0, 0.0, n.radius, DegToRad(n.start), DegToRad(n.end))
  }

  /** The calls before the fill or stroke: placement, colour, scale and the outline. */
  function Outline(n: ArcNode.Arc): seq<Cmd> {
    [Translate(n.x, n.y)] + [Source(n.color)] + [ScaleBy(n.scale)]
    + IfClosed(n.close, MoveTo(0.0, 0.0)) + [Sweep(n)] + IfClosed(n.close, LineTo(0.0, 0.0))
  }

  /** The calls an arc issues. */
  function Commands(n: ArcNode.Arc): seq<Cmd> {
    Outline(n) + Finish(n.fill, n.stroke)
  }

  method Render(s: Surface, n: ArcNode.Arc)
    modifies s
    ensures s.trace == old(s.trace) + Commands(n)
  {
    s.Translate(n.x, n.y);
    s.SetSourceRgba(n.color.r as real / 255.0, n.color.g as real / 255.0, n.color.b as real / 255.0, n.color.a);
    s.Scale(n.scale.x, n.scale.y);
    if n.close {
      s.MoveTo(0.0, 0.0);
    }
    s.Arc(0.0, 0.0, n.radius, n.start * (Pi / 180.0), n.end * (Pi / 180.0));
    if n.close {
      s.LineTo(0.0, 0.0);
    }
    if n.fill {
      s.Fill();
    } else {
      s.SetLineWidth(n.stroke.width);
      s.SetLineCap(n.stroke.cap);
      s.Stroke();
    }
  }

  /**
   * A closed arc is drawn as a pie slice: a `move_to` to the centre just before
   * the arc and a `line_to` back just after it; an open arc issues neither.
   */
  lemma Order(n: ArcNode.Arc)
    ensures Commands(n)[..3] == [Translate(n.x, n.y), Source(n.color), ScaleBy(n.scale)]
    ensures n.close ==> Commands(n)[3..6] == [MoveTo(0.0, 0.0), Sweep(n), LineTo(0.0, 0.0)]
    ensures !n.close ==> Commands(n)[3] == Sweep(n)
    ensures n.close ==> Commands(n)[6..] == Finish(n.fill, n.stroke)
    ensures !n.close ==> Commands(n)[4..] == Finish(n.fill, n.stroke)
    ensures Sweep(n).radius == n.radius && Sweep(n).angle1 == n.start * Pi / 180.0 && Sweep(n).angle2 == n.end * Pi / 180.0
  {
  }

  /**
   * The operations of the outline: translate, colour, scale, then exactly one
   * arc, with a `move_to` before it and a `line_to` after it when the arc is
   * closed and neither when it is open.
   */
  function OutlineOps(close: bool): seq<Op> {
    if close then [TranslateOp, SetSourceRgbaOp, ScaleOp, MoveToOp, ArcOp, LineToOp]
    else [TranslateOp, SetSourceRgbaOp, ScaleOp, ArcOp]
  }

  lemma OutlineOperations(n: ArcNode.Arc)
    ensures Ops(Outline(n)) == OutlineOps(n.close)
  {
    var head := [Translate(n.x, n.y), Source(n.color), ScaleBy(n.scale)];
    if n.close {
      assert Outline(n) == head + [MoveTo(0.0, 0.0), Sweep(n), LineTo(0.0, 0.0)];
    } else {
      assert Outline(n) == head + [Sweep(n)];
    }
  }

  /** The operations an arc issues, in order: its outline's, then fill or stroke; nothing else. */
  lemma Operations(n: ArcNode.Arc)
    ensures Ops(Commands(n)) == OutlineOps(n.close) + FinishOps(n.fill)
  {
    OutlineOperations(n);
    OpsConcat(Outline(n), Finish(n.fill, n.stroke));
    FinishExclusive(n.fill, n.stroke);
  }

  /** An arc is filled or stroked, never both, and never saves or restores. */
  lemma Paints(n: ArcNode.Arc)
    ensures PaintsOnce(Commands(n))
  {
    Operations(n);
    PaintsAfter(Commands(n), OutlineOps(n.close), n.fill);
  }
}
