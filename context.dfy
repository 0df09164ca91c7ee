/**
 * The drawing surface of claris-impl/src/context.rs (trait `Context`): the
 * eighteen operations a renderer may issue. A surface is modelled by the
 * commands it has received, in order; everything a backend does with them
 * (rasterising, font lookup) is outside the model.
 */
module Surfaces {
  import Strokes
  import TextNode

  /** One received call, with its arguments. */
  datatype Cmd =
    | MoveTo(x: real, y: real)
    | Save
    | Restore
    | Fill
    | Stroke
    | SetSourceRgba(r: real, g: real, b: real, a: real)
    | Rectangle(x: real, y: real, width: real, height: real)
    | Translate(x: real, y: real)
    | Scale(x: real, y: real)
    | SetLineWidth(width: real)
    | SetLineCap(cap: Strokes.LineCap)
    | Arc(xc: real, yc: real, radius: real, angle1: real, angle2: real)
    | CurveTo(x1: real, y1: real, x2: real, y2: real, x3: real, y3: real)
    | LineTo(x: real, y: real)
    | ClosePath
    | SelectFontFace(family: string, slant: TextNode.FontSlant, weight: TextNode.FontWeight)
    | SetFontSize(size: real)
    | ShowText(text: string)

  /** The operation of a call, its arguments forgotten. */
  datatype Op =
    | MoveToOp | SaveOp | RestoreOp | FillOp | StrokeOp | SetSourceRgbaOp
    | RectangleOp | TranslateOp | ScaleOp | SetLineWidthOp | SetLineCapOp
    | ArcOp | CurveToOp | LineToOp | ClosePathOp | SelectFontFaceOp
    | SetFontSizeOp | ShowTextOp

  function OpOf(c: Cmd): Op {
    match c
    case MoveTo(_, _) => MoveToOp
    case Save => SaveOp
    case Restore => RestoreOp
    case Fill => FillOp
    case Stroke => StrokeOp
    case SetSourceRgba(_, _, _, _) => SetSourceRgbaOp
    case Rectangle(_, _, _, _) => RectangleOp
    case Translate(_, _) => TranslateOp
    case Scale(_, _) => ScaleOp
    case SetLineWidth(_) => SetLineWidthOp
    case SetLineCap(_) => SetLineCapOp
    case Arc(_, _, _, _, _) => ArcOp
    case CurveTo(_, _, _, _, _, _) => CurveToOp
    case LineTo(_, _) => LineToOp
    case ClosePath => ClosePathOp
    case SelectFontFace(_, _, _) => SelectFontFaceOp
    case SetFontSize(_) => SetFontSizeOp
    case ShowText(_) => ShowTextOp
  }

  /** The operations of a trace, in order. */
  function Ops(t: seq<Cmd>): (r: seq<Op>)
    ensures |r| == |t|
    ensures forall i :: 0 <= i < |t| ==> r[i] == OpOf(t[i])
  {
    seq(|t|, i requires 0 <= i < |t| => OpOf(t[i]))
  }

  /** The operations a trace holds, with their multiplicities. */
  function Tally(t: seq<Cmd>): multiset<Op> {
    multiset(Ops(t))
  }

  /** How many calls of operation `op` a trace holds. */
  function Count(t: seq<Cmd>, op: Op): nat {
    Tally(t)[op]
  }

  lemma OpsConcat(a: seq<Cmd>, b: seq<Cmd>)
    ensures Ops(a + b) == Ops(a) + Ops(b)
  {
  }

  /** Tallies add up over concatenation. */
  lemma TallyConcat(a: seq<Cmd>, b: seq<Cmd>)
    ensures Tally(a + b) == Tally(a) + Tally(b)
  {
    OpsConcat(a, b);
  }

  lemma TallyOne(c: Cmd)
    ensures Tally([c]) == multiset{OpOf(c)}
  {
    assert Ops([c]) == [OpOf(c)];
  }

  /** One more call adds its operation once. */
  lemma TallyJoin(a: seq<Cmd>, c: Cmd)
    ensures Tally(a + [c]) == Tally(a) + multiset{OpOf(c)}
  {
    TallyConcat(a, [c]);
    TallyOne(c);
  }

  /** Appending is associative; stated once so that long traces need not be compared call by call. */
  lemma Assoc(a: seq<Cmd>, b: seq<Cmd>, c: seq<Cmd>)
    ensures a + b + c == a + (b + c)
  {
  }

  /** A trace received by a fresh surface is the trace itself. */
  lemma EmptyPrefix(t: seq<Cmd>)
    ensures [] + t == t
  {
  }

  /** A prefix holds no more calls of any operation than the whole trace. */
  lemma CountPrefix(t: seq<Cmd>, k: nat, op: Op)
    requires k <= |t|
    ensures Count(t[..k], op) <= Count(t, op)
  {
    assert t == t[..k] + t[k..];
    TallyConcat(t[..k], t[k..]);
  }

  // ---- save/restore bracketing ----

  /** Saves not yet restored. */
  function Depth(t: seq<Cmd>): int {
    Count(t, SaveOp) - Count(t, RestoreOp)
  }

  /** Every restore matches an earlier save, and every save is restored. */
  predicate Balanced(t: seq<Cmd>) {
    Depth(t) == 0 && forall k :: 0 <= k <= |t| ==> Depth(t[..k]) >= 0
  }

  /**
   * A body with no saves or restores of its own, put between a save and a
   * restore, is balanced, with one save and one restore.
   */
  lemma Bracketed(body: seq<Cmd>)
    requires SaveOp !in Ops(body) && RestoreOp !in Ops(body)
    ensures Balanced([Save] + body + [Restore])
    ensures Count([Save] + body + [Restore], SaveOp) == 1 && Count([Save] + body + [Restore], RestoreOp) == 1
  {
    assert Count(body, SaveOp) == 0 && Count(body, RestoreOp) == 0;
    var t := [Save] + body + [Restore];
    TallyOne(Save);
    TallyOne(Restore);
    TallyConcat([Save], body);
    TallyConcat([Save] + body, [Restore]);
    forall k | 0 <= k <= |t|
      ensures Depth(t[..k]) >= 0
    {
      if k == 0 {
        assert t[..k] == [];
      } else if k <= |body| + 1 {
        assert t[..k] == [Save] + body[..k - 1];
        TallyConcat([Save], body[..k - 1]);
        CountPrefix(body, k - 1, RestoreOp);
      } else {
        assert t[..k] == t;
      }
    }
  }

  /** Balanced traces stay balanced one after the other. */
  lemma BalancedConcat(a: seq<Cmd>, b: seq<Cmd>)
    requires Balanced(a) && Balanced(b)
    ensures Balanced(a + b)
  {
    TallyConcat(a, b);
    forall k | 0 <= k <= |a + b|
      ensures Depth((a + b)[..k]) >= 0
    {
      if k <= |a| {
        assert (a + b)[..k] == a[..k];
      } else {
        assert (a + b)[..k] == a + b[..k - |a|];
        TallyConcat(a, b[..k - |a|]);
      }
    }
  }

  /**
   * A surface that records what it receives. Each method models the trait
   * method of the same name: it appends its call to the trace and changes
   * nothing else.
   */
  class Surface {
    var trace: seq<Cmd>

    constructor ()
      ensures trace == []
    {
      trace := [];
    }

    method MoveTo(x: real, y: real)
      modifies this
      ensures trace == old(trace) + [Cmd.MoveTo(x, y)]
    {
      trace := trace + [Cmd.MoveTo(x, y)];
    }

    method Save()
      modifies this
      ensures trace == old(trace) + [Cmd.Save]
    {
      trace := trace + [Cmd.Save];
    }

    method Restore()
      modifies this
      ensures trace == old(trace) + [Cmd.Restore]
    {
      trace := trace + [Cmd.Restore];
    }

    method Fill()
      modifies this
      ensures trace == old(trace) + [Cmd.Fill]
    {
      trace := trace + [Cmd.Fill];
    }

    method Stroke()
      modifies this
      ensures trace == old(trace) + [Cmd.Stroke]
    {
      trace := trace + [Cmd.Stroke];
    }

    method SetSourceRgba(r: real, g: real, b: real, a: real)
      modifies this
      ensures trace == old(trace) + [Cmd.SetSourceRgba(r, g, b, a)]
    {
      trace := trace + [Cmd.SetSourceRgba(r, g, b, a)];
    }

    method Rectangle(x: real, y: real, width: real, height: real)
      modifies this
      ensures trace == old(trace) + [Cmd.Rectangle(x, y, width, height)]
    {
      trace := trace + [Cmd.Rectangle(x, y, width, height)];
    }

    method Translate(x: real, y: real)
      modifies this
      ensures trace == old(trace) + [Cmd.Translate(x, y)]
    {
      trace := trace + [Cmd.Translate(x, y)];
    }

    method Scale(x: real, y: real)
      modifies this
      ensures trace == old(trace) + [Cmd.Scale(x, y)]
    {
      trace := trace + [Cmd.Scale(x, y)];
    }

    method SetLineWidth(width: real)
      modifies this
      ensures trace == old(trace) + [Cmd.SetLineWidth(width)]
    {
      trace := trace + [Cmd.SetLineWidth(width)];
    }

    method SetLineCap(cap: Strokes.LineCap)
      modifies this
      ensures trace == old(trace) + [Cmd.SetLineCap(cap)]
    {
      trace := trace + [Cmd.SetLineCap(cap)];
    }

    method Arc(xc: real, yc: real, radius: real, angle1: real, angle2: real)
      modifies this
      ensures trace == old(trace) + [Cmd.Arc(xc, yc, radius, angle1, angle2)]
    {
      trace := trace + [Cmd.Arc(xc, yc, radius, angle1, angle2)];
    }

    method CurveTo(x1: real, y1: real, x2: real, y2: real, x3: real, y3: real)
      modifies this
      ensures trace == old(trace) + [Cmd.CurveTo(x1, y1, x2, y2, x3, y3)]
    {
      trace := trace + [Cmd.CurveTo(x1, y1, x2, y2, x3, y3)];
    }

    method LineTo(x: real, y: real)
      modifies this
      ensures trace == old(trace) + [Cmd.LineTo(x, y)]
    {
      trace := trace + [Cmd.LineTo(x, y)];
    }

    method ClosePath()
      modifies this
      ensures trace == old(trace) + [Cmd.ClosePath]
    {
      trace := trace + [Cmd.ClosePath];
    }

    method SelectFontFace(family: string, slant: TextNode.FontSlant, weight: TextNode.FontWeight)
      modifies this
      ensures trace == old(trace) + [Cmd.SelectFontFace(family, slant, weight)]
    {
      trace := trace + [Cmd.SelectFontFace(family, slant, weight)];
    }

    method SetFontSize(size: real)
      modifies this
      ensures trace == old(trace) + [Cmd.SetFontSize(size)]
    {
      trace := trace + [Cmd.SetFontSize(size)];
    }

    method ShowText(text: string)
      modifies this
      ensures trace == old(trace) + [Cmd.ShowText(text)]
    {
      trace := trace + [Cmd.ShowText(text)];
    }
  }
}
