/**
 * The counting `ContextImpl` of claris-impl/src/testing_helpers/stub/context.rs:
 * a surface that draws nothing and counts, per operation, the calls it receives.
 */
module ContextStub {
  import opened Surfaces
  import Strokes
  import TextNode

  class Stub {
    var moveToReceived: int
    var saveReceived: int
    var restoreReceived: int
    var fillReceived: int
    var strokeReceived: int
    var setSourceRgbaReceived: int
    var rectangleReceived: int
    var translateReceived: int
    var scaleReceived: int
    var setLineWidthReceived: int
    var setLineCapReceived: int
    var arcReceived: int
    var curveToReceived: int
    var lineToReceived: int
    var closePathReceived: int
    var selectFontFaceReceived: int
    var setFontSizeReceived: int
    var showTextReceived: int

    /** The counter of an operation. */
    function Received(op: Op): int
      reads this
    {
      match op
      case MoveToOp => moveToReceived
      case SaveOp => saveReceived
      case RestoreOp => restoreReceived
      case FillOp => fillReceived
      case StrokeOp => strokeReceived
      case SetSourceRgbaOp => setSourceRgbaReceived
      case RectangleOp => rectangleReceived
      case TranslateOp => translateReceived
      case ScaleOp => scaleReceived
      case SetLineWidthOp => setLineWidthReceived
      case SetLineCapOp => setLineCapReceived
      case ArcOp => arcReceived
      case CurveToOp => curveToReceived
      case LineToOp => lineToReceived
      case ClosePathOp => closePathReceived
      case SelectFontFaceOp => selectFontFaceReceived
      case SetFontSizeOp => setFontSizeReceived
      case ShowTextOp => showTextReceived
    }

    /** `new()`: every counter starts at zero. */
    constructor ()
      ensures forall op :: Received(op) == 0
    {
      moveToReceived := 0;
      saveReceived := 0;
      restoreReceived := 0;
      fillReceived := 0;
      strokeReceived := 0;
      setSourceRgbaReceived := 0;
      rectangleReceived := 0;
      translateReceived := 0;
      scaleReceived := 0;
      setLineWidthReceived := 0;
      setLineCapReceived := 0;
      arcReceived := 0;
      curveToReceived := 0;
      lineToReceived := 0;
      closePathReceived := 0;
      selectFontFaceReceived := 0;
      setFontSizeReceived := 0;
      showTextReceived := 0;
    }

    /** Counts one `MoveTo`; its arguments are ignored. */
    method MoveTo(x: real, y: real)
      modifies this
      ensures forall op :: Received(op) == old(Received(op)) + (if op == MoveToOp then 1 else 0)
    {
      moveToReceived := moveToReceived + 1;
    }

    /** Counts one `Save`; its arguments are ignored. */
    method Save()
      modifies this
      ensures forall op :: Received(op) == old(Received(op)) + (if op == SaveOp then 1 else 0)
    {
      saveReceived := saveReceived + 1;
    }

    /** Counts one `Restore`; its arguments are ignored. */
    method Restore()
      modifies this
      ensures forall op :: Received(op) == old(Received(op)) + (if op == RestoreOp then 1 else 0)
    {
      restoreReceived := restoreReceived + 1;
    }

    /** Counts one `Fill`; its arguments are ignored. */
    method Fill()
      modifies this
      ensures forall op :: Received(op) == old(Received(op)) + (if op == FillOp then 1 else 0)
    {
      fillReceived := fillReceived + 1;
    }

    /** Counts one `Stroke`; its arguments are ignored. */
    method Stroke()
      modifies this
      ensures forall op :: Received(op) == old(Received(op)) + (if op == StrokeOp then 1 else 0)
    {
      strokeReceived := strokeReceived + 1;
    }

    /** Counts one `SetSourceRgba`; its arguments are ignored. */
    method SetSourceRgba(r: real, g: real, b: real, a: real)
      modifies this
      ensures forall op :: Received(op) == old(Received(op)) + (if op == SetSourceRgbaOp then 1 else 0)
    {
      setSourceRgbaReceived := setSourceRgbaReceived + 1;
    }

    /** Counts one `Rectangle`; its arguments are ignored. */
    method Rectangle(x: real, y: real, width: real, height: real)
      modifies this
      ensures forall op :: Received(op) == old(Received(op)) + (if op == RectangleOp then 1 else 0)
    {
      rectangleReceived := rectangleReceived + 1;
    }

    /** Counts one `Translate`; its arguments are ignored. */
    method Translate(x: real, y: real)
      modifies this
      ensures forall op :: Received(op) == old(Received(op)) + (if op == TranslateOp then 1 else 0)
    {
      translateReceived := translateReceived + 1;
    }

    /** Counts one `Scale`; its arguments are ignored. */
    method Scale(x: real, y: real)
      modifies this
      ensures forall op :: Received(op) == old(Received(op)) + (if op == ScaleOp then 1 else 0)
    {
      scaleReceived := scaleReceived + 1;
    }

    /** Counts one `SetLineWidth`; its arguments are ignored. */
    method SetLineWidth(width: real)
      modifies this
      ensures forall op :: Received(op) == old(Received(op)) + (if op == SetLineWidthOp then 1 else 0)
    {
      setLineWidthReceived := setLineWidthReceived + 1;
    }

    /** Counts one `SetLineCap`; its arguments are ignored. */
    method SetLineCap(cap: Strokes.LineCap)
      modifies this
      ensures forall op :: Received(op) == old(Received(op)) + (if op == SetLineCapOp then 1 else 0)
    {
      setLineCapReceived := setLineCapReceived + 1;
    }

    /** Counts one `Arc`; its arguments are ignored. */
    method Arc(xc: real, yc: real, radius: real, angle1: real, angle2: real)
      modifies this
      ensures forall op :: Received(op) == old(Received(op)) + (if op == ArcOp then 1 else 0)
    {
      arcReceived := arcReceived + 1;
    }

    /** Counts one `CurveTo`; its arguments are ignored. */
    method CurveTo(x1: real, y1: real, x2: real, y2: real, x3: real, y3: real)
      modifies this
      ensures forall op :: Received(op) == old(Received(op)) + (if op == CurveToOp then 1 else 0)
    {
      curveToReceived := curveToReceived + 1;
    }

    /** Counts one `LineTo`; its arguments are ignored. */
    method LineTo(x: real, y: real)
      modifies this
      ensures forall op :: Received(op) == old(Received(op)) + (if op == LineToOp then 1 else 0)
    {
      lineToReceived := lineToReceived + 1;
    }

    /** Counts one `ClosePath`; its arguments are ignored. */
    method ClosePath()
      modifies this
      ensures forall op :: Received(op) == old(Received(op)) + (if op == ClosePathOp then 1 else 0)
    {
      closePathReceived := closePathReceived + 1;
    }

    /** Counts one `SelectFontFace`; its arguments are ignored. */
    method SelectFontFace(family: string, slant: TextNode.FontSlant, weight: TextNode.FontWeight)
      modifies this
      ensures forall op :: Received(op) == old(Received(op)) + (if op == SelectFontFaceOp then 1 else 0)
    {
      selectFontFaceReceived := selectFontFaceReceived + 1;
    }

    /** Counts one `SetFontSize`; its arguments are ignored. */
    method SetFontSize(size: real)
      modifies this
      ensures forall op :: Received(op) == old(Received(op)) + (if op == SetFontSizeOp then 1 else 0)
    {
      setFontSizeReceived := setFontSizeReceived + 1;
    }

    /** Counts one `ShowText`; its arguments are ignored. */
    method ShowText(text: string)
      modifies this
      ensures forall op :: Received(op) == old(Received(op)) + (if op == ShowTextOp then 1 else 0)
    {
      showTextReceived := showTextReceived + 1;
    }

    /** Receives one call: exactly the counter of its operation goes up by one. */
    method Receive(c: Cmd)
      modifies this
      ensures forall op :: Received(op) == old(Received(op)) + (if op == OpOf(c) then 1 else 0)
    {
      match c {
        case MoveTo(x, y) => MoveTo(x, y);
        case Save => Save();
        case Restore => Restore();
        case Fill => Fill();
        case Stroke => Stroke();
        case SetSourceRgba(r, g, b, a) => SetSourceRgba(r, g, b, a);
        case Rectangle(x, y, width, height) => Rectangle(x, y, width, height);
        case Translate(x, y) => Translate(x, y);
        case Scale(x, y) => Scale(x, y);
        case SetLineWidth(width) => SetLineWidth(width);
        case SetLineCap(cap) => SetLineCap(cap);
        case Arc(xc, yc, radius, angle1, angle2) => Arc(xc, yc, radius, angle1, angle2);
        case CurveTo(x1, y1, x2, y2, x3, y3) => CurveTo(x1, y1, x2, y2, x3, y3);
        case LineTo(x, y) => LineTo(x, y);
        case ClosePath => ClosePath();
        case SelectFontFace(family, slant, weight) => SelectFontFace(family, slant, weight);
        case SetFontSize(size) => SetFontSize(size);
        case ShowText(text) => ShowText(text);
      }
    }

    /** Receives a whole trace: each counter goes up by the number of calls of its operation, whatever the arguments. */
    method Play(t: seq<Cmd>)
      modifies this
      ensures forall op :: Received(op) == old(Received(op)) + Count(t, op)
    {
      var i := 0;
      while i < |t|
        invariant 0 <= i <= |t|
        invariant forall op :: Received(op) == old(Received(op)) + Count(t[..i], op)
      {
        Receive(t[i]);
        assert t[..i + 1] == t[..i] + [t[i]];
        TallyJoin(t[..i], t[i]);
        i := i + 1;
      }
      assert t[..i] == t;
    }
  }
}
