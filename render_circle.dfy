/** `Circle::render` of claris-impl/src/renderer/circle.rs. */
module CircleRenderer {
  import opened Surfaces
  import opened Paint
  import CircleNode

  /** The full turn the circle's arc sweeps, from 0 to 360 degrees. */
  function FullArc(radius: real): Cmd {
    Cmd.Arc(0.0, 0.0, radius, DegToRad(0.0), DegToRad(360.0))
  }

  /** The calls a circle issues. */
  function Commands(n: CircleNode.Circle): seq<Cmd> {
    [Translate(n.x, n.y)] + [Source(n.color)] + [ScaleBy(n.scale)]
    + [FullArc(n.radius)] + Finish(n.fill, n.stroke)
  }

  method Render(s: Surface, n: CircleNode.Circle)
    modifies s
    ensures s.trace == old(s.trace) + Commands(n)
  {
    s.Translate(n.x, n.y);
    s.SetSourceRgba(n.color.r as real / 255.0, n.color.g as real / 255.0, n.color.b as real / 255.0, n.color.a);
    s.Scale(n.scale.x, n.scale.y);
    s.Arc(0.0, 0.0, n.radius, 0.0 * (Pi / 180.0), 360.0 * (Pi / 180.0));
    if n.fill {
      s.Fill();
    } else {
      s.SetLineWidth(n.stroke.width);
      s.SetLineCap(n.stroke.cap);
      s.Stroke();
    }
  }

  /**
   * Translate, colour and scale come first, then one arc centred at the origin
   * with the node's radius, sweeping a full turn; then fill or stroke, never both.
   */
  lemma Order(n: CircleNode.Circle)
    ensures Commands(n)[..3] == [Translate(n.x, n.y), Source(n.color), ScaleBy(n.scale)]
    ensures Commands(n)[3].Arc? && Commands(n)[3].xc == 0.0 && Commands(n)[3].yc == 0.0
    ensures Commands(n)[3].radius == n.radius
    ensures Commands(n)[3].angle1 == 0.0 && Commands(n)[3].angle2 == 2.0 * Pi
    ensures Commands(n)[4..] == Finish(n.fill, n.stroke)
  {
  }

  /** The operations a circle issues, in order: translate, colour, scale, one arc, then fill or stroke; nothing else. */
  lemma Operations(n: CircleNode.Circle)
    ensures Ops(Commands(n)) == [TranslateOp, SetSourceRgbaOp, ScaleOp, ArcOp] + FinishOps(n.fill)
  {
    var head := [Translate(n.x, n.y), Source(n.color), ScaleBy(n.scale), FullArc(n.radius)];
    assert Commands(n) == head + Finish(n.fill, n.stroke);
    OpsConcat(head, Finish(n.fill, n.stroke));
    FinishExclusive(n.fill, n.stroke);
  }

  /** A circle is filled or stroked, never both, and never saves or restores. */
  lemma Paints(n: CircleNode.Circle)
    ensures PaintsOnce(Commands(n))
  {
    Operations(n);
  }
}
