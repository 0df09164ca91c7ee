/** `Rectangle::render` of claris-impl/src/renderer/rectangle.rs. */
module RectangleRenderer {
  import opened Surfaces
  import opened Paint
  import RectangleNode

  /** The calls a rectangle issues. */
  function Commands(n: RectangleNode.Rectangle): seq<Cmd> {
    [Translate(n.x, n.y)] + [Source(n.color)] + [ScaleBy(n.scale)]
    + [Cmd.Rectangle(0.0, 0.0, n.width, n.height)] + Finish(n.fill, n.stroke)
  }

  method Render(s: Surface, n: RectangleNode.Rectangle)
    modifies s
    ensures s.trace == old(s.trace) + Commands(n)
  {
    s.Translate(n.x, n.y);
    s.SetSourceRgba(n.color.r as real / 255.0, n.color.g as real / 255.0, n.color.b as real / 255.0, n.color.a);
    s.Scale(n.scale.x, n.scale.y);
    s.Rectangle(0.0, 0.0, n.width, n.height);
    if n.fill {
      s.Fill();
    } else {
      s.SetLineWidth(n.stroke.width);
      s.SetLineCap(n.stroke.cap);
      s.Stroke();
    }
  }

  /** Translate, colour and scale come first, then the rectangle at the origin with the node's size, then the ending. */
  lemma Order(n: RectangleNode.Rectangle)
    ensures Commands(n)[..4] == [Translate(n.x, n.y), Source(n.color), ScaleBy(n.scale), Cmd.Rectangle(0.0, 0.0, n.width, n.height)]
    ensures Commands(n)[4..] == Finish(n.fill, n.stroke)
  {
  }

  /**
   * The operations a rectangle issues, in order: translate, colour, scale, one
   * rectangle, then a fill alone or a stroke with its settings; nothing else.
   */
  lemma Operations(n: RectangleNode.Rectangle)
    ensures Ops(Commands(n)) == [TranslateOp, SetSourceRgbaOp, ScaleOp, RectangleOp] + FinishOps(n.fill)
  {
    var head := [Translate(n.x, n.y), Source(n.color), ScaleBy(n.scale), Cmd.Rectangle(0.0, 0.0, n.width, n.height)];
    assert Commands(n) == head + Finish(n.fill, n.stroke);
    OpsConcat(head, Finish(n.fill, n.stroke));
    FinishExclusive(n.fill, n.stroke);
  }

  /** The corner radius is parsed but never drawn. */
  lemma RadiusUnused(n: RectangleNode.Rectangle, radius: real)
    ensures Commands(n.(radius := radius)) == Commands(n)
  {
  }

  /** A rectangle is filled or stroked, never both, and never saves or restores. */
  lemma Paints(n: RectangleNode.Rectangle)
    ensures PaintsOnce(Commands(n))
  {
    Operations(n);
  }
}
