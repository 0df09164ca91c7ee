# claris core in Dafny

claris turns a YAML scene description into a PNG image. This project models
its core, which has two halves:

- the **node parsers** read the loaded YAML tree into a typed scene;
- the **renderers** draw that scene on a drawing surface.

Parsing covers the `YamlExt` accessors, `Color`, `Point`, `Stroke`, `Scale`,
`NodeError`, the eight layer kinds and `Root` with its layer list. Rendering
covers the eight shape renderers and the per-layer dispatcher with its
save/restore bracket. It also covers the compiler's `render_context`, which
paints the background and then every layer in document order, and the error
mapping of `compile_to_png`. The call-counting test stub is modelled too, and
so are the three render tests that use it.

The drawing surface (trait `Context`) is modelled as a class `Surface` that
records every call it receives, with its arguments, in a `trace`. Each
renderer is a method that appends exactly its `Commands(node)` to the trace.
Lemmas about `Commands` then state what the renderers guarantee:

- the call order;
- exactly one fill or stroke per layer, as the very last call;
- no save or restore inside a shape;
- a vertex-by-vertex path;
- one save and one restore around each layer;
- a balanced scene.

The counting stub is a class with one integer counter per operation. `Play`
feeds it a whole trace and raises each counter by the number of calls of
that operation (`Count`). Loops in the source are methods with loop
invariants, proved equal to recursive specification functions:

- `parse_vertex` and `parse_points`;
- `parse_layers`;
- the polygon and line path loops;
- the layer loop of `render_context`.

Files:

- `wrappers.dfy`: `Option` and `Result`.
- `yaml_ext.dfy`: the YAML tree and the typed accessors.
- `node_*.dfy`: the errors, value types and layer parsers.
- `context.dfy`: the surface and the operation counts.
- `render_*.dfy`: the renderers.
- `compiler.dfy`: the compiler.
- `context_stub.dfy`: the counting stub.
- `render_tests.dfy`: the three render tests.

## Model

| member | source | states |
|---|---|---|
| YamlExt.Lookup | claris-impl/src/ext/yaml.rs:86-87 | a key is found exactly when some entry has it, and the value returned is stored under it |
| YamlExt.AsNumber | claris-impl/src/ext/yaml.rs:19-25 | a number exactly for integer and real nodes: an integer as the equal float, a real as itself |
| YamlExt.Wrap32 | claris-impl/src/ext/yaml.rs:41 | `as i32` gives a value in the 32-bit range, congruent to the input modulo 2^32, and the input itself when it fits |
| YamlExt.F64Val | claris-impl/src/ext/yaml.rs:18-26 | present exactly when the field is an integer or a real; integers are widened, reals kept; a non-mapping has no fields |
| YamlExt.F32Val | claris-impl/src/ext/yaml.rs:28-33 | present exactly when `f64_val` is, with the same value |
| YamlExt.I64Val | claris-impl/src/ext/yaml.rs:35-37 | present exactly for an integer field, with its value; a real is not truncated |
| YamlExt.I32Val | claris-impl/src/ext/yaml.rs:39-44 | present exactly for an integer field; always in 32-bit range; equal to the field when it fits |
| YamlExt.BoolVal | claris-impl/src/ext/yaml.rs:46-48 | present exactly for a boolean field, with its value |
| YamlExt.StrVal | claris-impl/src/ext/yaml.rs:50-55 | present exactly for a string field, with its text |
| YamlExt.StringVal | claris-impl/src/ext/yaml.rs:57-62 | the owned copy agrees with `str_val` on every input |
| YamlExt.ArrayVal | claris-impl/src/ext/yaml.rs:64-69 | present exactly for an array field, with its elements |
| YamlExt.HashVal | claris-impl/src/ext/yaml.rs:71-76 | present exactly for a mapping field, with its entries |
| YamlExt.Entry | claris-impl/src/ext/yaml.rs:78-80 | always present: the value stored under the key, or `BadValue` for an absent key or a non-mapping |
| YamlExt.HashF64Val | claris-impl/src/ext/yaml.rs:84-97 | looks the key up as `Yaml::from_str(key)`: absent when that node is missing, otherwise the stored node read as a number; for a key that converts to itself, agrees with the node accessor |
| YamlExt.HashF32Val | claris-impl/src/ext/yaml.rs:99-104 | present exactly when the mapping's `f64_val` is, with the same value |
| YamlExt.HashI64Val | claris-impl/src/ext/yaml.rs:106-113 | looks the key up as `Yaml::from_str(key)`: absent when that node is missing, otherwise the stored node read as an integer; agrees with the node accessor on plain keys |
| YamlExt.HashI32Val | claris-impl/src/ext/yaml.rs:115-120 | present exactly when the mapping's `i64_val` is, wrapped to 32 bits |
| YamlExt.HashBoolVal | claris-impl/src/ext/yaml.rs:122-129 | looks the key up as `Yaml::from_str(key)`: absent when that node is missing, otherwise the stored node read as a boolean; agrees with the node accessor on plain keys |
| YamlExt.HashStrVal | claris-impl/src/ext/yaml.rs:131-141 | looks the key up as `Yaml::from_str(key)`: absent when that node is missing, otherwise the text of the stored node when it is a string; agrees with the node accessor on plain keys |
| YamlExt.HashStringVal | claris-impl/src/ext/yaml.rs:143-153 | agrees with the mapping's `str_val` on every input |
| YamlExt.HashArrayVal | claris-impl/src/ext/yaml.rs:155-165 | looks the key up as `Yaml::from_str(key)`: absent when that node is missing, otherwise the elements of the stored node when it is an array; agrees with the node accessor on plain keys |
| YamlExt.HashHashVal | claris-impl/src/ext/yaml.rs:167-177 | looks the key up as `Yaml::from_str(key)`: absent when that node is missing, otherwise the entries of the stored node when it is a mapping; agrees with the node accessor on plain keys |
| YamlExt.HashEntry | claris-impl/src/ext/yaml.rs:179-186 | unlike the node's `entry`, absent exactly when the converted key is missing, and otherwise the stored value |
| YamlExt.NonMappingHasNoFields | claris-impl/src/ext/yaml.rs:17-80 | on a node that is not a mapping, every typed accessor finds nothing and `entry` gives `BadValue` |
| YamlExt.NoCoercion | claris-impl/src/ext/yaml.rs:18-55 | a quoted "10" is no number, a real is no integer, numbers and booleans are no strings; an integer reads as a float |
| YamlExt.FieldNamesArePlain | claris-impl/src/ext/yaml.rs:85 | the field names the stroke and scale parsers use are looked up as themselves |
| YamlExt.NumericKeyIsNotPlain | claris-impl/src/ext/yaml.rs:85 | the mapping accessors look a key "12" up as the integer 12 |
| NodeErrors.RequiredMessage | claris-impl/src/node/error.rs:18 | the `Required` message is `'node' is required 'field' option` and starts with a quote |
| NodeErrors.DecodeMessage | claris-impl/src/node/error.rs:15-28 | every message other than `Required`'s decodes back to the error that produced it, and none of them starts with a quote |
| NodeErrors.FixedMessagesDistinct | claris-impl/src/node/error.rs:20-25 | the fixed messages are pairwise different |
| NodeErrors.MessageInjective | claris-impl/src/node/error.rs:15-28 | two errors of the decodable kinds with the same message are the same error |
| Colors.New | claris-impl/src/node/color.rs:22-33 | channels kept; the alpha is kept exactly when it is in [0, 1], otherwise 1.0; the result is always in range |
| Colors.HexValue | claris-impl/src/node/color.rs:16 | a hex digit of either case has a value below 16 |
| Colors.Parse | claris-impl/src/node/color.rs:15-20 | fails exactly when the CSS text does not parse, with `InvalidColor` holding the text; on success `Color::new` of the parsed channels and alpha, so an in-range alpha |
| Colors.HexDigitRoundTrip | claris-impl/src/node/color.rs:16 | each of the 16 upper-case digits reads back as its value |
| Colors.HexByteRoundTrip | claris-impl/src/node/color.rs:16 | a channel written as two hex digits reads back as itself |
| Colors.ParseToHex | claris-impl/src/node/color.rs:15-20 | parsing `#RRGGBB` written from any three channels gives those channels, opaque |
| Colors.ParseExamples | claris-impl/src/node/color.rs:41-57 | "#AABBCC" is (170, 187, 204, 1.0); "#AABBCG" fails with the message `invalid color format '#AABBCG'` |
| Colors.LayerColor | claris-impl/src/node/rectangle.rs:38-46 | a missing `color` is `Required(node, "color")`, a bad one `InvalidColor(text)`; otherwise `Color::new` of the parsed RGB and the layer's alpha, so an out-of-range alpha becomes 1.0 |
| Points.AsPointVec | claris-impl/src/node/point.rs:44-68 | a point exactly for two numeric elements, with their values as floats |
| Points.AsPoint | claris-impl/src/node/point.rs:13-42 | a point exactly for a two-element array of numbers, with their values as floats |
| Points.NodeAndVecAgree | claris-impl/src/node/point.rs:13-68 | the node and vector implementations agree on the same elements |
| Points.PointExamples | claris-impl/src/node/point.rs:77-137 | integer and float pairs parse; a quoted number, three elements and a mapping do not |
| Points.PointListSpec | claris-impl/src/node/polygon.rs:54-61 | the point loop succeeds exactly when every element is a point, and then keeps length, order and values |
| Scales.Parse | claris-impl/src/node/scale.rs:13-18 | each axis is its numeric field, or 1.0 when it is absent |
| Scales.FromLayer | claris-impl/src/node/rectangle.rs:50-52 | a layer's scale is the parsed `scale` mapping when there is one, else the default |
| Scales.AxesIndependent | claris-impl/src/node/scale.rs:46-81 | an absent axis is 1.0 whatever the other holds; a present one is read as a number |
| Scales.ParseEmptyIsDefault | claris-impl/src/node/scale.rs:20-25 | an empty mapping gives the default scale (1, 1) |
| Strokes.CapOf | claris-impl/src/node/stroke.rs:18-26 | `round` and `square` name their caps; every other name is `Butt` |
| Strokes.Parse | claris-impl/src/node/stroke.rs:15-29 | the width is the numeric `width` or 1.0; the cap is named by the string `cap`, else `Butt` |
| Strokes.FromLayer | claris-impl/src/node/rectangle.rs:47-49 | a layer's stroke is the parsed `stroke` mapping when there is one, else the default |
| Strokes.ParseEmptyIsDefault | claris-impl/src/node/stroke.rs:31-36 | an empty mapping gives the default stroke (1.0, `Butt`) |
| Strokes.WidthExamples | claris-impl/src/node/stroke.rs:58-72 | an integer and a float width are read, the cap left at `Butt` |
| Strokes.CapExamples | claris-impl/src/node/stroke.rs:74-116 | each cap name gives its cap; an unknown name and a non-string give `Butt` |
| NodeFields.RequiredNumber | claris-impl/src/node/rectangle.rs:24-26 | the numeric field when present, otherwise `Required(node, field)` |
| Layers.KeyOf | claris-impl/src/node/root.rs:91-124 | every layer kind has one of the eight keys |
| Layers.KeysDistinct | claris-impl/src/node/root.rs:91-124 | the eight keys are pairwise different, so the key names the variant |
| RectangleNode.Parse | claris-impl/src/node/rectangle.rs:23-65 | x, y, width and height are required, in that order, then the colour; every field of the result is its option or default |
| CircleNode.Parse | claris-impl/src/node/circle.rs:21-57 | x, y and radius are required, in that order, then the colour; fill, stroke and scale default |
| ArcNode.Parse | claris-impl/src/node/arc.rs:24-70 | x, y, start, end and radius are required, in that order, then the colour; fill and close default to false |
| TextNode.WeightOf | claris-impl/src/node/text.rs:53-56 | bold exactly for "bold", else normal |
| TextNode.SlantOf | claris-impl/src/node/text.rs:57-61 | italic and oblique exactly for their names, else upright |
| TextNode.Parse | claris-impl/src/node/text.rs:27-74 | x and y, then the colour, then `text` are required; family "serif" and size 14 by default |
| CurveNode.ControlPoint | claris-impl/src/node/curve.rs:38-55 | a missing control point is `Required`; an array that is not a point is `InvalidPoint` |
| CurveNode.Parse | claris-impl/src/node/curve.rs:21-65 | the colour, then start, mid and end, each failing with its own `Required` or `InvalidPoint` in that order; on success all three points |
| PolygonNode.Vertices | claris-impl/src/node/polygon.rs:49-62 | `vertex` is required; the vertices are every element read as a point, in order, or `InvalidPoint` if one is not a point |
| PolygonNode.ParseVertex | claris-impl/src/node/polygon.rs:49-62 | the loop computes `Vertices` |
| PolygonNode.Parse | claris-impl/src/node/polygon.rs:20-47 | the colour, then the vertices; any number of vertices, none included |
| PolygonNode.EmptyVertexAccepted | claris-impl/src/node/polygon.rs:49-62 | an empty `vertex` array is accepted |
| TriangleNode.ParseVertex | claris-impl/src/node/triangle.rs:56-70 | `vertex` is required and must have exactly three elements (`InvalidVertex`), each a point (`InvalidPoint`) |
| TriangleNode.PointOr | claris-impl/src/node/triangle.rs:65-67 | a point, or `InvalidPoint` |
| TriangleNode.Parse | claris-impl/src/node/triangle.rs:27-54 | the colour, then the three vertices; fill defaults to false |
| LineNode.PointsOf | claris-impl/src/node/line.rs:46-59 | `points` is required; every element read as a point, in order, or `InvalidPoint` |
| LineNode.ParsePoints | claris-impl/src/node/line.rs:46-59 | the loop computes `PointsOf` |
| LineNode.Parse | claris-impl/src/node/line.rs:19-44 | the colour with alpha default 255.0, then the points; any number of points |
| LineNode.OmittedAlphaIsOpaque | claris-impl/src/node/line.rs:20 | without an `alpha` option the 255.0 default is coerced to an opaque 1.0 |
| RootNode.Background | claris-impl/src/node/root.rs:36-43 | the background is the parsed colour made opaque, or transparent black when it is absent or bad |
| RootNode.ParseEntry | claris-impl/src/node/root.rs:91-127 | an unknown key is `UnknownLayer(key)`; each known key gives its node parser's result or error, and the layer carries that key |
| RootNode.ParseLayer | claris-impl/src/node/root.rs:76-89 | not exactly one entry is `InvalidLayerCount`; a non-string key or one that reads as another scalar is `InvalidLayerDefine`; otherwise `ParseEntry` |
| RootNode.ScalarKeysAreIllDefined | claris-impl/src/node/root.rs:81-89 | keys "true" and "12" give `InvalidLayerDefine`, not `UnknownLayer` |
| RootNode.KeptIndicesSpec | claris-impl/src/node/root.rs:63-71 | the positions of kept layers are in range, strictly increasing, and exactly the mappings that parse |
| RootNode.SelectLayersSpec | claris-impl/src/node/root.rs:55-74 | fails exactly when some element is not a mapping, with `InvalidLayer`; otherwise the parsed layers of the kept elements, in document order |
| RootNode.SelectLayersStep | claris-impl/src/node/root.rs:64-68 | one more mapping appends its layer when it parses and is skipped when it does not |
| RootNode.LayersOf | claris-impl/src/node/root.rs:58-61 | `layers` is required as an array |
| RootNode.ParseLayers | claris-impl/src/node/root.rs:55-74 | the loop computes `LayersOf` |
| RootNode.Parse | claris-impl/src/node/root.rs:27-53 | width then height are required 32-bit integers; the background defaults; then the layers, whose error is passed through |
| RootNode.BackgroundAlpha | claris-impl/src/node/root.rs:36-43 | the background's alpha is in range, and is 1.0 exactly when a colour was given and parsed |
| Surfaces.Bracketed | claris-impl/src/renderer/mod.rs:24-54 | a body with no save or restore, put between a save and a restore, is balanced with one of each |
| Surfaces.BalancedConcat | claris-impl/src/compiler.rs:54-66 | balanced traces stay balanced one after the other |
| Surfaces.CountPrefix | claris-impl/src/testing_helpers/stub/context.rs:32-104 | a prefix holds no more calls of any operation than the whole trace |
| Surfaces.Surface.constructor | claris-impl/src/context.rs:29-33 | a new surface has received nothing |
| Surfaces.Surface.MoveTo | claris-impl/src/context.rs:4 | appends its call and nothing else |
| Surfaces.Surface.Save | claris-impl/src/context.rs:5 | appends its call and nothing else |
| Surfaces.Surface.Restore | claris-impl/src/context.rs:6 | appends its call and nothing else |
| Surfaces.Surface.Fill | claris-impl/src/context.rs:7 | appends its call and nothing else |
| Surfaces.Surface.Stroke | claris-impl/src/context.rs:8 | appends its call and nothing else |
| Surfaces.Surface.SetSourceRgba | claris-impl/src/context.rs:9 | appends its call and nothing else |
| Surfaces.Surface.Rectangle | claris-impl/src/context.rs:10 | appends its call and nothing else |
| Surfaces.Surface.Translate | claris-impl/src/context.rs:11 | appends its call and nothing else |
| Surfaces.Surface.Scale | claris-impl/src/context.rs:12 | appends its call and nothing else |
| Surfaces.Surface.SetLineWidth | claris-impl/src/context.rs:13 | appends its call and nothing else |
| Surfaces.Surface.SetLineCap | claris-impl/src/context.rs:14 | appends its call and nothing else |
| Surfaces.Surface.Arc | claris-impl/src/context.rs:15 | appends its call and nothing else |
| Surfaces.Surface.CurveTo | claris-impl/src/context.rs:16 | appends its call and nothing else |
| Surfaces.Surface.LineTo | claris-impl/src/context.rs:17 | appends its call and nothing else |
| Surfaces.Surface.ClosePath | claris-impl/src/context.rs:18 | appends its call and nothing else |
| Surfaces.Surface.SelectFontFace | claris-impl/src/context.rs:19 | appends its call and nothing else |
| Surfaces.Surface.SetFontSize | claris-impl/src/context.rs:20 | appends its call and nothing else |
| Surfaces.Surface.ShowText | claris-impl/src/context.rs:21 | appends its call and nothing else |
| Paint.PaintsAfter | claris-impl/src/renderer/rectangle.rs:17-23 | a translated head with no save, restore or paint, followed by the fill-or-stroke ending, paints exactly once |
| Paint.FinishExclusive | claris-impl/src/renderer/rectangle.rs:17-23 | a filled shape ends with one fill; any other ends with width, cap and stroke |
| Paint.PathAt | claris-impl/src/renderer/polygon.rs:17-23 | the path has one call per point, `move_to` for the first and `line_to` for each later one, at that point |
| Paint.PathExtend | claris-impl/src/renderer/polygon.rs:17-23 | one more point adds exactly its own path call |
| Paint.PathOperations | claris-impl/src/renderer/polygon.rs:17-23 | the path's operations are one `move_to` followed by `line_to`s, one per point |
| Paint.PathOpsTally | claris-impl/src/renderer/polygon.rs:17-23 | a path of k >= 1 points has one `move_to` and k - 1 `line_to`s; an empty one has none |
| Paint.PathOnlyMoves | claris-impl/src/renderer/polygon.rs:17-23 | a path issues nothing but `move_to` and `line_to` |
| Paint.PathCountsAmong | claris-impl/src/renderer/polygon.rs:17-23 | among calls that draw no segments, the path's counts are the whole trace's |
| RectangleRenderer.Render | claris-impl/src/renderer/rectangle.rs:7-24 | appends exactly the rectangle's calls |
| RectangleRenderer.Order | claris-impl/src/renderer/rectangle.rs:8-23 | translate, colour over 255, scale, the rectangle at the origin, then the ending |
| RectangleRenderer.Operations | claris-impl/src/renderer/rectangle.rs:8-23 | the operations in order, nothing else |
| RectangleRenderer.RadiusUnused | claris-impl/src/renderer/rectangle.rs:16 | the corner radius does not change what is drawn |
| RectangleRenderer.Paints | claris-impl/src/renderer/rectangle.rs:17-23 | paints exactly once, last; never saves or restores |
| CircleRenderer.Render | claris-impl/src/renderer/circle.rs:8-31 | appends exactly the circle's calls |
| CircleRenderer.Order | claris-impl/src/renderer/circle.rs:9-30 | a full arc from 0 to 2π at the origin with the node's radius, between the scale and the ending |
| CircleRenderer.Operations | claris-impl/src/renderer/circle.rs:9-30 | the operations in order, nothing else |
| CircleRenderer.Paints | claris-impl/src/renderer/circle.rs:24-30 | paints exactly once, last; never saves or restores |
| ArcRenderer.Render | claris-impl/src/renderer/arc.rs:8-37 | appends exactly the arc's calls |
| ArcRenderer.Order | claris-impl/src/renderer/arc.rs:9-36 | a closed arc is a pie slice (`move_to` centre, arc, `line_to` centre); an open one is the arc alone; the angles are in radians |
| ArcRenderer.OutlineOperations | claris-impl/src/renderer/arc.rs:9-29 | the outline's operations, with and without `close` |
| ArcRenderer.Operations | claris-impl/src/renderer/arc.rs:9-36 | the outline's operations, then the ending; nothing else |
| ArcRenderer.Paints | claris-impl/src/renderer/arc.rs:30-36 | paints exactly once, last; never saves or restores |
| TriangleRenderer.Render | claris-impl/src/renderer/triangle.rs:7-27 | appends exactly the triangle's calls |
| TriangleRenderer.SameAsPolygon | claris-impl/src/renderer/triangle.rs:8-26 | a triangle draws exactly what the polygon of its three corners draws |
| TriangleRenderer.Operations | claris-impl/src/renderer/triangle.rs:8-26 | one `move_to`, two `line_to`s and `close_path`, then the ending |
| TriangleRenderer.Paints | claris-impl/src/renderer/triangle.rs:20-26 | paints exactly once, last; never saves or restores |
| PolygonRenderer.Render | claris-impl/src/renderer/polygon.rs:8-32 | the loop appends exactly the polygon's calls |
| PolygonRenderer.Operations | claris-impl/src/renderer/polygon.rs:9-31 | translate, colour and scale, the path, `close_path`, then the ending |
| PolygonRenderer.VisitsVertices | claris-impl/src/renderer/polygon.rs:17-24 | the call for vertex i goes to vertex i, and `close_path` follows the last one |
| PolygonRenderer.PathCounts | claris-impl/src/renderer/polygon.rs:17-23 | n >= 1 vertices give one `move_to` and n - 1 `line_to`s; none give neither |
| PolygonRenderer.Paints | claris-impl/src/renderer/polygon.rs:25-31 | paints exactly once, last, even with no vertices; never saves or restores |
| LineRenderer.Render | claris-impl/src/renderer/line.rs:7-26 | the loop appends exactly the line's calls |
| LineRenderer.Operations | claris-impl/src/renderer/line.rs:8-25 | the stroke settings come before the path, then one stroke |
| LineRenderer.VisitsPoints | claris-impl/src/renderer/line.rs:18-25 | the call for point i goes to point i; the stroke is last and the path is left open |
| LineRenderer.DefaultCounts | claris-impl/src/renderer/line.rs:35-48 | the default line's calls, with their multiplicities |
| LineRenderer.Paints | claris-impl/src/renderer/line.rs:8-25 | strokes exactly once, last; never fills, saves or restores |
| CurveRenderer.Render | claris-impl/src/renderer/curve.rs:7-27 | appends exactly the curve's calls |
| CurveRenderer.Order | claris-impl/src/renderer/curve.rs:8-26 | the stroke settings, then one `curve_to` through start, mid and end, then the stroke |
| CurveRenderer.Operations | claris-impl/src/renderer/curve.rs:8-26 | the seven operations in order, nothing else |
| CurveRenderer.DefaultCounts | claris-impl/src/renderer/curve.rs:36-48 | the default curve's calls, with their multiplicities |
| CurveRenderer.Paints | claris-impl/src/renderer/curve.rs:8-26 | strokes exactly once, last; never fills, saves or restores |
| TextRenderer.Render | claris-impl/src/renderer/text.rs:7-21 | appends exactly the text's calls |
| TextRenderer.Order | claris-impl/src/renderer/text.rs:8-20 | translate, `move_to` origin, then font face, size and `show_text` with the node's values |
| TextRenderer.Operations | claris-impl/src/renderer/text.rs:8-20 | the eight operations in order, ending with the stroke |
| TextRenderer.DefaultCounts | claris-impl/src/renderer/text.rs:30-42 | the default text's calls, with their multiplicities |
| TextRenderer.Paints | claris-impl/src/renderer/text.rs:8-20 | strokes exactly once, last; never fills, saves or restores |
| LayerRenderer.RenderBody | claris-impl/src/renderer/mod.rs:27-52 | the match dispatches each layer kind to its own renderer |
| LayerRenderer.Render | claris-impl/src/renderer/mod.rs:24-54 | a save, the layer's renderer, a restore |
| LayerRenderer.BodyPaintsOnce | claris-impl/src/renderer/mod.rs:27-52 | every kind of layer paints exactly once, last, without saving or restoring |
| LayerRenderer.Bracketing | claris-impl/src/renderer/mod.rs:24-54 | each layer opens with a save, closes with a restore, holds one of each and is balanced |
| Compiler.ParseStage | claris-impl/src/compiler.rs:37-38 | the parse succeeds exactly when `Root::parse` does; an error becomes `ParseError` with its display message |
| Compiler.ParseErrorRecoverable | claris-impl/src/compiler.rs:37-38 | the message of a non-`Required` parse error determines the error |
| Compiler.PaintBackground | claris-impl/src/compiler.rs:54-63 | the background calls are appended |
| Compiler.RenderContext | claris-impl/src/compiler.rs:52-69 | always `Ok(0)`; the background, then every layer in document order |
| Compiler.DrawnStep | claris-impl/src/compiler.rs:64-66 | one more layer extends the drawing by its calls |
| Compiler.LayersConcat | claris-impl/src/compiler.rs:64-66 | drawing two lists of layers one after the other is drawing their concatenation |
| Compiler.LayerInPlace | claris-impl/src/compiler.rs:64-66 | each layer is drawn once, after all earlier layers and before all later ones |
| Compiler.LayersBalanced | claris-impl/src/compiler.rs:64-66 | the layers' calls are balanced, with one save and one restore per layer |
| Compiler.EveryLayerBracketed | claris-impl/src/renderer/mod.rs:24-54 | every layer the dispatcher draws is balanced with one save and one restore |
| Compiler.BackgroundFirst | claris-impl/src/compiler.rs:54-63 | the scene opens with save, the colour over 255, the whole canvas from the origin, fill and restore |
| Compiler.BackgroundThen | claris-impl/src/compiler.rs:54-63 | the background adds one balanced save/restore pair |
| Compiler.SceneBalanced | claris-impl/src/compiler.rs:52-69 | the scene is balanced, with one save and one restore for the background and one per layer |
| Compiler.CompileToPng | claris-impl/src/compiler.rs:34-50 | stages fail in order (load, parse, create file, write image); nothing is drawn unless the document parses; the image surface is assumed to be created |
| ContextStub.Stub.constructor | claris-impl/src/testing_helpers/stub/context.rs:26-29 | every counter starts at zero |
| ContextStub.Stub.MoveTo | claris-impl/src/testing_helpers/stub/context.rs:33-35 | raises its own counter by one and no other |
| ContextStub.Stub.Save | claris-impl/src/testing_helpers/stub/context.rs:37-39 | raises its own counter by one and no other |
| ContextStub.Stub.Restore | claris-impl/src/testing_helpers/stub/context.rs:41-43 | raises its own counter by one and no other |
| ContextStub.Stub.Fill | claris-impl/src/testing_helpers/stub/context.rs:45-47 | raises its own counter by one and no other |
| ContextStub.Stub.Stroke | claris-impl/src/testing_helpers/stub/context.rs:49-51 | raises its own counter by one and no other |
| ContextStub.Stub.SetSourceRgba | claris-impl/src/testing_helpers/stub/context.rs:53-55 | raises its own counter by one and no other |
| ContextStub.Stub.Rectangle | claris-impl/src/testing_helpers/stub/context.rs:57-59 | raises its own counter by one and no other |
| ContextStub.Stub.Translate | claris-impl/src/testing_helpers/stub/context.rs:61-63 | raises its own counter by one and no other |
| ContextStub.Stub.Scale | claris-impl/src/testing_helpers/stub/context.rs:65-67 | raises its own counter by one and no other |
| ContextStub.Stub.SetLineWidth | claris-impl/src/testing_helpers/stub/context.rs:69-71 | raises its own counter by one and no other |
| ContextStub.Stub.SetLineCap | claris-impl/src/testing_helpers/stub/context.rs:73-75 | raises its own counter by one and no other |
| ContextStub.Stub.Arc | claris-impl/src/testing_helpers/stub/context.rs:77-79 | raises its own counter by one and no other |
| ContextStub.Stub.CurveTo | claris-impl/src/testing_helpers/stub/context.rs:81-83 | raises its own counter by one and no other |
| ContextStub.Stub.LineTo | claris-impl/src/testing_helpers/stub/context.rs:85-87 | raises its own counter by one and no other |
| ContextStub.Stub.ClosePath | claris-impl/src/testing_helpers/stub/context.rs:89-91 | raises its own counter by one and no other |
| ContextStub.Stub.SelectFontFace | claris-impl/src/testing_helpers/stub/context.rs:93-95 | raises its own counter by one and no other |
| ContextStub.Stub.SetFontSize | claris-impl/src/testing_helpers/stub/context.rs:97-99 | raises its own counter by one and no other |
| ContextStub.Stub.ShowText | claris-impl/src/testing_helpers/stub/context.rs:101-103 | raises its own counter by one and no other |
| ContextStub.Stub.Receive | claris-impl/src/testing_helpers/stub/context.rs:32-104 | one call raises the counter of its operation by one, whatever its arguments |
| ContextStub.Stub.Play | claris-impl/src/testing_helpers/stub/context.rs:32-104 | after a whole trace each counter has risen by the number of calls of its operation |
| RenderTests.Counted | claris-impl/src/testing_helpers/stub/context.rs:26-29 | a fresh stub fed a trace holds that trace's operation counts |
| RenderTests.LineTest | claris-impl/src/renderer/line.rs:35-48 | the stub's counters after the default line: the source's eight counts, every other counter zero |
| RenderTests.CurveTest | claris-impl/src/renderer/curve.rs:36-48 | the stub's counters after the default curve: the source's seven counts, every other counter zero |
| RenderTests.TextTest | claris-impl/src/renderer/text.rs:30-42 | the stub's counters after the default text: the source's seven counts, one `move_to`, every other counter zero |

## Left out

- Loading the source file and parsing YAML syntax (claris-impl/src/loader.rs) are I/O. `Compiler.CompileToPng` takes the loaded tree, or the loader's message, as an input.
- Compiler.CompileToPng: `ImageSurface::create(..).unwrap()` (claris-impl/src/compiler.rs:39) panics for sizes cairo refuses, such as a negative width that `Root::parse` accepts. That panic is not modelled. The model always obtains a surface.
- The cairo backend is outside the model: creating the image surface, rasterising, `surface.flush`, `finish` and PNG encoding. Whether the output file could be created and the image written are boolean inputs of `Compiler.CompileToPng`.
- The command-line front end (src/main.rs) is not part of this model.
- Debug logging is not modelled. This covers `debug!` of skipped layers and of each layer drawn.
- Colors.Parse: only the `#rrggbb` form of the CSS colour syntax is modelled. Named colours, `rgb()`/`rgba()`/`hsl()`, short hex and CSS-supplied alphas are not, because the CSS parsing crate is not part of this model.
- Floating point is modelled as exact reals. This covers the f64 arithmetic (`/ 255.0`, `* (PI / 180.0)`) and the f32 narrowing of `f32_val` and of the colour alpha. `Pi` is the decimal literal of `std::f64::consts::PI`.
- YamlExt.FromStr: of `Yaml::from_str`, only the null, boolean and decimal integer spellings are modelled. Float-looking, hexadecimal and octal keys are looked up as strings.
- A real YAML node carries the number it denotes. yaml_rust stores the text and parses it on access; that parse is not modelled.
- Duplicate keys in one mapping are not modelled, because the loader's map never holds two.
- The renderers take a `&mut Context` (a cairo context or the trait object). Both are modelled as calls on `Surfaces.Surface`. The font slant `Normal` is named `Upright`.
- ContextStub.Stub: the counters are unbounded integers. The source's `i32` counters would overflow only after 2^31 calls.
- The `Default` fixtures of the shapes other than line, curve and text have no render test in the source and are not modelled.

The model keeps three behaviours of the code:

- `Circle::parse` requires `radius`.
- A polygon or line accepts any number of points, none included.
- The root node's errors name the node "root node".
