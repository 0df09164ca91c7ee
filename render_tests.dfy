/**
 * The rendering tests of claris-impl/src/renderer/line.rs, curve.rs and
 * text.rs: a default node drawn, its calls received by a fresh counting stub,
 * and every one of the stub's counters checked (those the tests leave out are
 * zero).
 */
module RenderTests {
  import opened Surfaces
  import opened ContextStub
  import LineRenderer
  import CurveRenderer
  import TextRenderer

  /** The calls of the default line: one `move_to` and two `line_to`s between the colour and the stroke. */
  const LineCounts: multiset<Op> :=
    multiset{TranslateOp, SetSourceRgbaOp, ScaleOp, MoveToOp, LineToOp, LineToOp, SetLineWidthOp, SetLineCapOp, StrokeOp}

  /** The calls of the default curve: one `curve_to` between the colour and the stroke. */
  const CurveCounts: multiset<Op> :=
    multiset{TranslateOp, SetSourceRgbaOp, ScaleOp, CurveToOp, SetLineWidthOp, SetLineCapOp, StrokeOp}

  /** The calls of the default text: the font face, its size and `show_text`, then the stroke. */
  const TextCounts: multiset<Op> :=
    multiset{TranslateOp, MoveToOp, SetSourceRgbaOp, ScaleOp, SelectFontFaceOp, SetFontSizeOp, ShowTextOp, StrokeOp}

  /** A fresh stub that has received the trace `t`, whose operations are counted by `m`. */
  method Counted(t: seq<Cmd>, ghost m: multiset<Op>) returns (stub: Stub)
    requires Tally(t) == m
    ensures forall op :: stub.Received(op) == m[op]
  {
    stub := new Stub();
    stub.Play(t);
  }

  /** `test_render` of the line renderer: the stub's counters are exactly `LineCounts`. */
  method LineTest() returns (stub: Stub)
    ensures forall op :: stub.Received(op) == LineCounts[op]
  {
    var s := new Surface();
    LineRenderer.Render(s, LineRenderer.DefaultNode());
    EmptyPrefix(LineRenderer.Commands(LineRenderer.DefaultNode()));
    LineRenderer.DefaultCounts();
    stub := Counted(s.trace, LineCounts);
  }

  /** `test_render` of the curve renderer: the stub's counters are exactly `CurveCounts`. */
  method CurveTest() returns (stub: Stub)
    ensures forall op :: stub.Received(op) == CurveCounts[op]
  {
    var s := new Surface();
    CurveRenderer.Render(s, CurveRenderer.DefaultNode());
    EmptyPrefix(CurveRenderer.Commands(CurveRenderer.DefaultNode()));
    CurveRenderer.DefaultCounts();
    stub := Counted(s.trace, CurveCounts);
  }

  /** `test_render` of the text renderer: the stub's counters are exactly `TextCounts`. */
  method TextTest() returns (stub: Stub)
    ensures forall op :: stub.Received(op) == TextCounts[op]
  {
    var s := new Surface();
    TextRenderer.Render(s, TextRenderer.DefaultNode());
    EmptyPrefix(TextRenderer.Commands(TextRenderer.DefaultNode()));
    TextRenderer.DefaultCounts();
    stub := Counted(s.trace, TextCounts);
  }
}
