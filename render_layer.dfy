/** `render` of claris-impl/src/renderer/mod.rs: one layer between a save and a restore. */
module LayerRenderer {
  import opened Surfaces
  import opened Paint
  import opened Layers
  import RectangleRenderer
  import CircleRenderer
  import ArcRenderer
  import TriangleRenderer
  import PolygonRenderer
  import LineRenderer
  import CurveRenderer
  import TextRenderer

  /** The calls of the renderer for the layer's own variant. */
  function Body(l: Layer): seq<Cmd> {
    match l
    case Rectangle(x) => RectangleRenderer.Commands(x)
    case Circle(x) => CircleRenderer.Commands(x)
    case Arc(x) => ArcRenderer.Commands(x)
    case Triangle(x) => TriangleRenderer.Commands(x)
    case Polygon(x) => PolygonRenderer.Commands(x)
    case Line(x) => LineRenderer.Commands(x)
    case Curve(x) => CurveRenderer.Commands(x)
    case Text(x) => TextRenderer.Commands(x)
  }

  /** The calls for one layer: save, the variant's own calls, restore. */
  function LayerCommands(l: Layer): seq<Cmd> {
    [Save] + Body(l) + [Restore]
  }

  /** The variant's own renderer, and no other, draws the layer. */
  method RenderBody(s: Surface, l: Layer)
    modifies s
    ensures s.trace == old(s.trace) + Body(l)
  {
    match l {
      case Rectangle(x) =>
        RectangleRenderer.Render(s, x);
        assert s.trace == old(s.trace) + Body(l);
      case Circle(x) =>
        CircleRenderer.Render(s, x);
        assert s.trace == old(s.trace) + Body(l);
      case Arc(x) =>
        ArcRenderer.Render(s, x);
        assert s.trace == old(s.trace) + Body(l);
      case Triangle(x) =>
        TriangleRenderer.Render(s, x);
        assert s.trace == old(s.trace) + Body(l);
      case Polygon(x) =>
        PolygonRenderer.Render(s, x);
        assert s.trace == old(s.trace) + Body(l);
      case Line(x) =>
        LineRenderer.Render(s, x);
        assert s.trace == old(s.trace) + Body(l);
      case Curve(x) =>
        CurveRenderer.Render(s, x);
        assert s.trace == old(s.trace) + Body(l);
      case Text(x) =>
        TextRenderer.Render(s, x);
        assert s.trace == old(s.trace) + Body(l);
    }
  }

  /** Every variant is handled and the call cannot fail: save, the variant's renderer, restore. */
  method Render(s: Surface, l: Layer)
    modifies s
    ensures s.trace == old(s.trace) + LayerCommands(l)
  {
    ghost var before := s.trace;
    s.Save();
    RenderBody(s, l);
    s.Restore();
    Assoc(before, [Save], Body(l));
    Assoc(before, [Save] + Body(l), [Restore]);
  }

  /** Whatever the variant, the body never saves or restores and paints exactly once. */
  lemma BodyPaintsOnce(l: Layer)
    ensures PaintsOnce(Body(l))
  {
    match l
    case Rectangle(x) => RectangleRenderer.Paints(x);
    case Circle(x) => CircleRenderer.Paints(x);
    case Arc(x) => ArcRenderer.Paints(x);
    case Triangle(x) => TriangleRenderer.Paints(x);
    case Polygon(x) => PolygonRenderer.Paints(x);
    case Line(x) => LineRenderer.Paints(x);
    case Curve(x) => CurveRenderer.Paints(x);
    case Text(x) => TextRenderer.Paints(x);
  }

  /**
   * A layer's calls open with a save and close with a restore, hold exactly
   * one of each, and are balanced: no restore comes before its save.
   */
  lemma Bracketing(l: Layer)
    ensures LayerCommands(l)[0] == Save && LayerCommands(l)[|LayerCommands(l)| - 1] == Restore
    ensures Count(LayerCommands(l), SaveOp) == 1 && Count(LayerCommands(l), RestoreOp) == 1
    ensures Balanced(LayerCommands(l))
  {
    var body := Body(l);
    BodyPaintsOnce(l);
    Bracketed(body);
  }
}
