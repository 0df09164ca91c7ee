/** `Text::render` of claris-impl/src/renderer/text.rs. */
module TextRenderer {
  import opened Surfaces
  import opened Paint
  import Colors
  import Scales
  import TextNode

  /** The calls a text issues: the pen moved to the translated origin, then the glyphs shown and stroked. */
  function Commands(n: TextNode.Text): seq<Cmd> {
    [Translate(n.x, n.y)] + [MoveTo(0.0, 0.0)] + [Source(n.color)] + [ScaleBy(n.scale)]
    + [SelectFontFace(n.family, n.slant, n.weight)] + [SetFontSize(n.size)] + [ShowText(n.text)] + [Cmd.Stroke]
  }

  method Render(s: Surface, n: TextNode.Text)
    modifies s
    ensures s.trace == old(s.trace) + Commands(n)
  {
    s.Translate(n.x, n.y);
    s.MoveTo(0.0, 0.0);
    s.SetSourceRgba(n.color.r as real / 255.0, n.color.g as real / 255.0, n.color.b as real / 255.0, n.color.a);
    s.Scale(n.scale.x, n.scale.y);
    s.SelectFontFace(n.family, n.slant, n.weight);
    s.SetFontSize(n.size);
    s.ShowText(n.text);
    s.Stroke();
  }

  /**
   * The text is placed by a translation to the node's position and a move to
   * its origin; the face and size are chosen before the text is shown.
   */
  lemma Order(n: TextNode.Text)
    ensures |Commands(n)| == 8
    ensures Commands(n)[0] == Translate(n.x, n.y) && Commands(n)[1] == MoveTo(0.0, 0.0)
    ensures Commands(n)[4] == SelectFontFace(n.family, n.slant, n.weight)
    ensures Commands(n)[5] == SetFontSize(n.size)
    ensures Commands(n)[6] == ShowText(n.text)
  {
  }

  /** The operations a text issues, in order; it never fills. */
  lemma Operations(n: TextNode.Text)
    ensures Ops(Commands(n)) ==
              [TranslateOp, MoveToOp, SetSourceRgbaOp, ScaleOp, SelectFontFaceOp, SetFontSizeOp, ShowTextOp, StrokeOp]
  {
    assert Commands(n) == [Translate(n.x, n.y), MoveTo(0.0, 0.0), Source(n.color), ScaleBy(n.scale),
                           SelectFontFace(n.family, n.slant, n.weight), SetFontSize(n.size), ShowText(n.text), Cmd.Stroke];
  }

  /** The text of the source's test helpers: "Hello World!" in a 14-point upright serif, black, at the origin. */
  function DefaultNode(): TextNode.Text {
    TextNode.Text(0.0, 0.0, Colors.Color(0, 0, 0, 1.0), Scales.Default(), "Hello World!",
                  TextNode.DefaultFamily, TextNode.DefaultSize, TextNode.Normal, TextNode.Upright)
  }

  /** The source's rendering test: the default text issues each of its eight operations once. */
  lemma DefaultCounts()
    ensures Tally(Commands(DefaultNode())) ==
              multiset{TranslateOp, MoveToOp, SetSourceRgbaOp, ScaleOp, SelectFontFaceOp, SetFontSizeOp, ShowTextOp, StrokeOp}
  {
    Operations(DefaultNode());
  }

  /** A text is stroked once and never filled; it never saves or restores. */
  lemma Paints(n: TextNode.Text)
    ensures PaintsOnce(Commands(n))
  {
    Operations(n);
  }
}
