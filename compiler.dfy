/**
 * `Compiler` of claris-impl/src/compiler.rs: a parsed document drawn on a
 * surface, the background first and then every layer in document order, and
 * the errors of the whole pipeline.
 */
module Compiler {
  import opened Wrappers
  import opened YamlExt
  import opened NodeErrors
  import opened Surfaces
  import opened Paint
  import opened Layers
  import RootNode
  import LayerRenderer

  /** What can go wrong between a source path and a written image. */
  datatype CompileError =
    | LoadError(message: string)
    | ParseError(message: string)
    | OutputError(path: string)
    | ExportError

  const OutputHead: string := "file output error! path: '"

  /** The `Display` text of a compile error. */
  function Display(e: CompileError): string {
    match e
    case LoadError(x) => x
    case ParseError(x) => x
    case OutputError(x) => OutputHead + x + "'"
    case ExportError => "file export error!"
  }

  /** The parse stage of `compile_to_png`: a document, or its parse error reported by its message. */
  function ParseStage(src: Yaml): (r: Result<RootNode.Root, CompileError>)
    ensures r.Ok? <==> RootNode.Parse(src).Ok?
    ensures r.Ok? ==> r.value == RootNode.Parse(src).value
    ensures r.Err? ==> r.error.ParseError? && Display(r.error) == Message(RootNode.Parse(src).error)
  {
    match RootNode.Parse(src)
    case Ok(root) => Ok(root)
    case Err(e) => Err(ParseError(Message(e)))
  }

  /**
   * Nothing of a parse error is lost but the names inside a `Required`: every
   * other error is read back from the reported message.
   */
  lemma ParseErrorRecoverable(src: Yaml)
    requires ParseStage(src).Err? && !RootNode.Parse(src).error.Required?
    ensures Decode(ParseStage(src).error.message) == Some(RootNode.Parse(src).error)
  {
    DecodeMessage(RootNode.Parse(src).error);
  }

  /** The background: its own save and restore around a fill of the whole canvas with the document's colour. */
  function BackgroundCommands(root: RootNode.Root): seq<Cmd> {
    [Save, Source(root.color), Cmd.Rectangle(0.0, 0.0, root.width as real, root.height as real), Fill, Restore]
  }

  /**
   * The calls for a list of layers, `draw` giving each layer's own, in list
   * order. The lemmas below hold for any `draw`; the compiler uses the
   * renderer's `LayerCommands`.
   */
  function Drawn(draw: Layer -> seq<Cmd>, ls: seq<Layer>): seq<Cmd> {
    if ls == [] then []
    else Drawn(draw, ls[..|ls| - 1]) + draw(ls[|ls| - 1])
  }

  /** The calls for the document's layers. */
  function LayersCommands(ls: seq<Layer>): seq<Cmd> {
    Drawn(LayerRenderer.LayerCommands, ls)
  }

  /** Everything `render_context` issues. */
  function SceneCommands(root: RootNode.Root): seq<Cmd> {
    BackgroundCommands(root) + LayersCommands(root.layers)
  }

  /** The background part of `render_context`. */
  method PaintBackground(s: Surface, root: RootNode.Root)
    modifies s
    ensures s.trace == old(s.trace) + BackgroundCommands(root)
  {
    s.Save();
    s.SetSourceRgba(root.color.r as real / 255.0, root.color.g as real / 255.0, root.color.b as real / 255.0, root.color.a);
    s.Rectangle(0.0, 0.0, root.width as real, root.height as real);
    s.Fill();
    s.Restore();
  }

  /** `render_context`: the background, then each layer once, in order; it always succeeds. */
  method RenderContext(s: Surface, root: RootNode.Root) returns (r: Result<nat, CompileError>)
    modifies s
    ensures r == Ok(0)
    ensures s.trace == old(s.trace) + SceneCommands(root)
  {
    PaintBackground(s, root);
    ghost var start := s.trace;
    var draw := LayerRenderer.LayerCommands;
    var i := 0;
    while i < |root.layers|
      invariant 0 <= i <= |root.layers|
      invariant s.trace == start + Drawn(draw, root.layers[..i])
    {
      ghost var before := s.trace;
      LayerRenderer.Render(s, root.layers[i]);
      DrawnStep(draw, root.layers, i, start, before, s.trace);
      i := i + 1;
    }
    assert root.layers[..i] == root.layers;
    Assoc(old(s.trace), BackgroundCommands(root), LayersCommands(root.layers));
    return Ok(0);
  }

  /** One more layer drawn after the first `i` extends the drawing by that layer's calls. */
  lemma DrawnStep(draw: Layer -> seq<Cmd>, ls: seq<Layer>, i: nat, start: seq<Cmd>, before: seq<Cmd>, after: seq<Cmd>)
    requires i < |ls|
    requires before == start + Drawn(draw, ls[..i])
    requires after == before + draw(ls[i])
    ensures after == start + Drawn(draw, ls[..i + 1])
  {
    assert ls[..i + 1][..i] == ls[..i];
  }

  /** Drawing two lists of layers one after the other is drawing their concatenation. */
  lemma {:induction false} LayersConcat(draw: Layer -> seq<Cmd>, a: seq<Layer>, b: seq<Layer>)
    ensures Drawn(draw, a + b) == Drawn(draw, a) + Drawn(draw, b)
  {
    if b == [] {
      assert a + b == a;
    } else {
      var init := b[..|b| - 1];
      assert (a + b)[..|a + b| - 1] == a + init;
      assert (a + b)[|a + b| - 1] == b[|b| - 1];
      LayersConcat(draw, a, init);
    }
  }

  /** Each layer is drawn once, in its place: after every earlier layer and before every later one. */
  lemma LayerInPlace(draw: Layer -> seq<Cmd>, ls: seq<Layer>, i: nat)
    requires i < |ls|
    ensures Drawn(draw, ls) == Drawn(draw, ls[..i]) + draw(ls[i]) + Drawn(draw, ls[i + 1..])
  {
    LayersConcat(draw, ls[..i], [ls[i]]);
    assert [ls[i]][..0] == [];
    SplitAround(ls, i);
    LayersConcat(draw, ls[..i] + [ls[i]], ls[i + 1..]);
  }

  lemma SplitAround(ls: seq<Layer>, i: nat)
    requires i < |ls|
    ensures ls == ls[..i] + [ls[i]] + ls[i + 1..]
  {
  }

  /** The layers' calls are balanced and hold one save and one restore per layer. */
  lemma {:induction false} LayersBalanced(draw: Layer -> seq<Cmd>, ls: seq<Layer>)
    requires forall l :: Balanced(draw(l)) && Count(draw(l), SaveOp) == 1 && Count(draw(l), RestoreOp) == 1
    ensures Balanced(Drawn(draw, ls))
    ensures Count(Drawn(draw, ls), SaveOp) == |ls| && Count(Drawn(draw, ls), RestoreOp) == |ls|
  {
    if ls != [] {
      var init := ls[..|ls| - 1];
      var last := ls[|ls| - 1];
      LayersBalanced(draw, init);
      BalancedConcat(Drawn(draw, init), draw(last));
      TallyConcat(Drawn(draw, init), draw(last));
    }
  }

  /** Every layer the renderer draws is balanced, with one save and one restore. */
  lemma EveryLayerBracketed()
    ensures forall l :: Balanced(LayerRenderer.LayerCommands(l))
                        && Count(LayerRenderer.LayerCommands(l), SaveOp) == 1
                        && Count(LayerRenderer.LayerCommands(l), RestoreOp) == 1
  {
    forall l {
      LayerRenderer.Bracketing(l);
    }
  }

  /**
   * The background comes first, inside its own save and restore: the colour
   * with each channel over 255 and the alpha unchanged, then the whole canvas
   * from the origin, filled.
   */
  lemma BackgroundFirst(root: RootNode.Root)
    ensures SceneCommands(root)[..5] == BackgroundCommands(root)
    ensures SceneCommands(root)[0] == Save && SceneCommands(root)[4] == Restore
    ensures SceneCommands(root)[1] == Source(root.color) && SceneCommands(root)[1].a == root.color.a
    ensures SceneCommands(root)[2] == Cmd.Rectangle(0.0, 0.0, root.width as real, root.height as real)
    ensures SceneCommands(root)[3] == Fill
    ensures SceneCommands(root)[5..] == LayersCommands(root.layers)
  {
  }

  /** The background, put before balanced calls, keeps them balanced and adds one save and one restore. */
  lemma BackgroundThen(root: RootNode.Root, rest: seq<Cmd>)
    requires Balanced(rest)
    ensures Balanced(BackgroundCommands(root) + rest)
    ensures Count(BackgroundCommands(root) + rest, SaveOp) == Count(rest, SaveOp) + 1
    ensures Count(BackgroundCommands(root) + rest, RestoreOp) == Count(rest, RestoreOp) + 1
  {
    var fill := [Source(root.color), Cmd.Rectangle(0.0, 0.0, root.width as real, root.height as real), Fill];
    var bg := BackgroundCommands(root);
    assert bg == [Save] + fill + [Restore];
    assert Ops(fill) == [SetSourceRgbaOp, RectangleOp, FillOp];
    Bracketed(fill);
    BalancedConcat(bg, rest);
    TallyConcat(bg, rest);
  }

  /** The whole scene is balanced, with one save and one restore for the background and one of each per layer. */
  lemma SceneBalanced(root: RootNode.Root)
    ensures Balanced(SceneCommands(root))
    ensures Count(SceneCommands(root), SaveOp) == |root.layers| + 1
    ensures Count(SceneCommands(root), RestoreOp) == |root.layers| + 1
  {
    EveryLayerBracketed();
    LayersBalanced(LayerRenderer.LayerCommands, root.layers);
    BackgroundThen(root, LayersCommands(root.layers));
  }

  /**
   * `compile_to_png` with its I/O as inputs: the loaded tree or the loader's
   * message, and whether the output file could be created and the image
   * written. Stages fail in order and nothing is drawn unless the document parses.
   */
  method CompileToPng(s: Surface, loaded: Result<Yaml, string>, outPath: string, created: bool, written: bool)
    returns (r: Result<nat, CompileError>)
    modifies s
    ensures loaded.Err? ==> r == Err(LoadError(loaded.error)) && s.trace == old(s.trace)
    ensures loaded.Ok? && ParseStage(loaded.value).Err? ==> r == Err(ParseStage(loaded.value).error) && s.trace == old(s.trace)
    ensures loaded.Ok? && ParseStage(loaded.value).Ok? ==>
              && s.trace == old(s.trace) + SceneCommands(ParseStage(loaded.value).value)
              && r == (if !created then Err(OutputError(outPath)) else if !written then Err(ExportError) else Ok(0))
  {
    if loaded.Err? {
      return Err(LoadError(loaded.error));
    }
    var parsed := ParseStage(loaded.value);
    if parsed.Err? {
      return Err(parsed.error);
    }
    var _ := RenderContext(s, parsed.value);
    if !created {
      return Err(OutputError(outPath));
    }
    if !written {
      return Err(ExportError);
    }
    return Ok(0);
  }
}
