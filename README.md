# pslib in Dafny

This project models the core of pslib, a Rust library that writes PostScript
and Encapsulated PostScript documents. It covers these parts:

- **Shapes.** A rectangle (`Rect`) and a line (`Line`). Each is configured by
  chained setters that clamp their inputs. Each serialises itself to markup
  (`to_postscript_string`).
- **Pages.** A `Page` buffers the markup of its shapes. It frames that markup
  with its bounding box, its page size and `showpage`.
- **Procedure registry.** A `ProcedureRegistry` of named PostScript procedures.
  The two built-in procedures, `rect` and `line`, draw the shapes' paths.
- **Documents.** `Document::new` writes the header comments and the built-in
  procedure bodies. A `DocumentBuilder` chooses PostScript or EPS, a bounding
  box and a writer, then builds the document.
- **Image registry.** An `ImageRegistry` gives each image file a counter-based
  procedure name, `imagerN`.

The model represents markup as a sequence of operator tokens (`Graphics.Op`),
one token per line the serialisers write, and not as text. `f32` values are
`real`s. An output writer is a sequence of chunks (`Output.Chunk`) that only
ever grows. Where the source panics, the model returns an error value
(`Outcome` or `Result`).

Classes carry the state that the source updates in place:

- `Rects.Rect`
- `Lines.Line`
- `Pages.Page`
- `Procedures.ProcedureRegistry`
- `Documents.DocumentBuilder`
- `Images.ImageRegistry`

The source's `build` takes the builder by value, so the builder is gone once
built. The model keeps the object and marks it with a ghost flag, `consumed`,
that every builder method requires to be false.

The serialisers are methods. Each is proved equal to a function of a value
snapshot of the shape (`RectTokens`, `LineTokens`). The lemmas are stated over
those functions.

Three interpreters give the markup a meaning:

- **Graphics-state stack.** `Graphics.Simulate` tracks the `gsave`/`grestore`
  stack of section 4.3 of the PostScript Language Reference (3rd edition).
- **Path operators.** `Procedures.Invoke` runs the path operators that make up
  the built-in procedure bodies: `newpath`, `moveto`, `rlineto` and
  `closepath`.
- **Decimal text.** `Decimal.Show` writes numbers in decimal, and `Decimal.Parse`
  reads them back.

## Model

| member | source | states |
|---|---|---|
| `Graphics.Clamp` | src/rect.rs:47-54 | The result lies in [lo, hi]. A value already in range is unchanged. Values below or above the range go to lo or hi. |
| `Graphics.AtLeast` | src/rect.rs:29-32 | The result is at least `lo` and at least the input, and equals one of the two. |
| `Graphics.AtLeastInt` | src/page.rs:12-18 | The same as `AtLeast`, for the integer page and bounding-box sizes; the result is a natural number. |
| `Graphics.ClampRgb` | src/rect.rs:47-54 | Every channel ends in [0, 1]. A colour already in range is kept unchanged. |
| `Graphics.ClampCmyk` | src/rect.rs:56-64 | Every channel ends in [0, 1]. An ink already in range is kept unchanged. |
| `Graphics.SetColor` | src/rect.rs:141-161 | RGB mode emits `setrgbcolor` with the RGB colour; CMYK mode emits `setcmykcolor` with the CMYK ink. |
| `Graphics.SimulateConcat` | src/rect.rs:105-201 | Running two token runs in turn equals running the second from the depth the first ends at, and underflow carries through. |
| `Graphics.SimulateCounts` | src/rect.rs:105-201 | A run that ends without underflow ends at the start depth plus its saves minus its restores. |
| `Graphics.BalancedWellNested` | src/rect.rs:105-201 | Balanced markup has as many `gsave` as `grestore`, and no prefix restores more than it saved. |
| `Graphics.WrappedNeutral` | src/rect.rs:139-164 | A body without saves or restores, framed by `gsave`/`grestore`, returns to its starting depth. |
| `Procedures.ProcedureRegistry.constructor` | src/lib.rs:186-190 | A new registry is empty. |
| `Procedures.ProcedureRegistry.AddProcedure` | src/lib.rs:192-194 | Inserts under the procedure's own name, replacing an earlier entry of that name. Lookups of other names are unchanged. The size grows by one exactly when the name is new. |
| `Procedures.ProcedureRegistry.GetProcedure` | src/lib.rs:196-198 | Finds nothing exactly when the name is absent. What it finds carries the name that was asked for and is a stored value. |
| `Procedures.ProcedureRegistry.ListProcedures` | src/lib.rs:200-202 | A procedure is listed exactly when it is the one stored under its own name. There is one listed procedure per stored name. |
| `Procedures.ValuesNamedByKeys` | src/lib.rs:200-202 | When each entry is named by its key, the map has as many distinct values as keys. |
| `Procedures.ProcedureRegistry.WithBuiltins` | src/lib.rs:204-237 | The registry holds exactly the names `rect` and `line`, bound to the two built-in bodies, and lists exactly those two procedures. |
| `Rects.Anchor` | src/rect.rs:110-118 | The pivot lies inside the rectangle. It is the named corner: `TopLeft` (x, y + h), `TopRight` (x + w, y + h), `BottomLeft` (x, y), `BottomRight` (x + w, y). For `Center` it is the centre. |
| `Rects.Rect.constructor` | src/rect.rs:25-45 | Geometry is raised to at least 0. There is no fill, no stroke and no transform; every colour channel is 0, the origin is the centre, and both modes are RGB. |
| `Rects.Rect.FillRgb` | src/rect.rs:47-54 | Sets the clamped RGB fill, turns fill on and sets the fill mode to RGB. No other field changes. |
| `Rects.Rect.FillCmyk` | src/rect.rs:56-64 | Sets the clamped CMYK fill, turns fill on and sets the fill mode to CMYK. No other field changes. |
| `Rects.Rect.StrokeRgb` | src/rect.rs:66-73 | Sets the stroke width (at least 0) and the clamped RGB stroke, in RGB mode. No other field changes. |
| `Rects.Rect.StrokeCmyk` | src/rect.rs:75-83 | Sets the stroke width (at least 0) and the clamped CMYK stroke, in CMYK mode. No other field changes. |
| `Rects.Rect.Scale` | src/rect.rs:85-90 | Stores the factors unclamped and turns scaling on. No other field changes. |
| `Rects.Rect.SetOrigin` | src/rect.rs:92-95 | Changes only the transform origin. |
| `Rects.Rect.Rotate` | src/rect.rs:97-101 | Stores the angle clamped to [-360, 360] and turns rotation on. No other field changes. |
| `Rects.Rect.ToPostScript` | src/rect.rs:105-201 | The emitted markup equals `RectTokens` of the rectangle's state. |
| `Rects.RectBalanced` | src/rect.rs:108-198 | A rectangle's markup is balanced on the graphics-state stack. |
| `Rects.PrologueOpens` | src/rect.rs:108-130 | The transform prologue leaves exactly one extra state saved when rotation or scaling is on, and none otherwise. |
| `Rects.PaintBlocksNeutral` | src/rect.rs:139-194 | The fill block and the stroke block each leave the save depth where they found it. That each paint operator has its own frame is `Rects.RectPaintFramed`. |
| `Rects.RectPrologueOrder` | src/rect.rs:108-137 | When rotation or scaling is on, the markup is `gsave`, translate to the anchor, rotate (if on), scale (if on), translate by the negated anchor, the `rect` call, and ends with `grestore`. Otherwise it starts with the `rect` call. |
| `Rects.RectPathIsBoundary` | src/rect.rs:132-137 | The built-in `rect` body, run on the emitted operands, traces (x, y), (x, y+h), (x+w, y+h), (x+w, y), back to (x, y), and closes the path. |
| `Rects.RectPaintOrder` | src/rect.rs:139-194 | `fill` appears exactly when fill is on, and `stroke` exactly when the stroke width is positive. Every fill comes before every stroke. |
| `Rects.RectPaintColors` | src/rect.rs:139-194 | Every `fill` comes right after the fill colour, set with `setrgbcolor` or `setcmykcolor` as the fill mode says. Every `stroke` comes right after `setlinewidth` with the stroke width and then the stroke colour in the stroke mode's operator. |
| `Rects.RectPaintFramed` | src/rect.rs:139-194 | Every `fill` sits in its own frame: `gsave` two tokens before it, `grestore` right after it. Every `stroke` sits in its own frame too: `gsave` three tokens before it, `grestore` right after it. |
| `Rects.RectOperandsInRange` | src/rect.rs:105-201 | Every colour the markup sets is in [0, 1]. Any rotation is in [-360, 360]. Any line width is positive. The only procedure it calls is the built-in `rect`. |
| `Lines.LineAnchor` | src/line.rs:69-78 | The pivot's y is y plus half the stroke width. Its x is the start, the middle or the end of the line. |
| `Lines.Line.constructor` | src/line.rs:23-35 | Position and length are raised to at least 0. The stroke is black and 1 wide, there is no rotation and no scale, and the origin is the centre. |
| `Lines.Line.Stroke` | src/line.rs:37-43 | Sets the width (at least 0) and the clamped colour. No other field changes. |
| `Lines.Line.Scale` | src/line.rs:45-50 | Stores the factors and turns scaling on. No other field changes. |
| `Lines.Line.SetOrigin` | src/line.rs:52-55 | Changes only the origin. |
| `Lines.Line.Rotate` | src/line.rs:57-60 | Stores the angle clamped to [0, 360]. No other field changes. |
| `Lines.Line.ToPostScript` | src/line.rs:64-115 | The emitted markup equals `LineTokens` of the line's state. |
| `Lines.LineBalanced` | src/line.rs:67-112 | The markup opens with `gsave`, closes with `grestore`, and is balanced. |
| `Lines.LineRotation` | src/line.rs:81-83 | A rotate appears exactly when the angle is strictly between 0 and 360. It carries the negated angle, in (-360, 0), and comes right after the translate. |
| `Lines.LineOpeningOrder` | src/line.rs:67-97 | The order is translate to the anchor, then the optional rotate, then the scale exactly when scaling is on, then the `line` call. |
| `Lines.LineStrokeOperands` | src/line.rs:99-110 | Line width and `stroke` appear exactly when the width is positive. The only colour set is the stroke colour, which is in [0, 1]. The only call is the built-in `line`. |
| `Lines.LineStrokeColor` | src/line.rs:99-106 | A stroke colour is set exactly when the width is positive. |
| `Lines.LineStrokeFramed` | src/line.rs:99-110 | Every `stroke` comes right after `setlinewidth` with the stroke width, `setrgbcolor` with the stroke colour, and `gsave`. A `grestore` follows it directly. |
| `Lines.LinePathAsWritten` | src/line.rs:89-97 | The built-in `line` body, run on the emitted operands, moves to (x, y) and draws to (2x + length, 2y), then closes the path. |
| `Lines.LinePathIntended` | src/line.rs:89-97 | Run on the operands (length, 0, x, y), the `line` body moves to (x, y) and draws to (x + length, y), a horizontal segment of the line's length, in the coordinates the anchor `translate` leaves in effect. |
| `Lines.LineEndAsWrittenMissed` | src/line.rs:89-97 | Whenever the line does not start at the origin, the path drawn from the emitted operands differs from the intended one. |
| `Pages.Page.constructor` | src/page.rs:12-18 | Sizes are raised to at least 1, and the buffer starts empty. |
| `Pages.Page.Add` | src/page.rs:20-24 | Appends the item's markup. The earlier buffer is a prefix of the new one, the sizes are unchanged, and the buffer stays the in-order concatenation of all items added. |
| `Pages.Page.Fabricate` | src/page.rs:28-39 | Writes, in order, the bounding-box and page-size lines, then the markup of all added items in the order they were added, then `showpage`. |
| `Pages.FiveHundredByThreeHundred` | src/page.rs:28-35 | A 500 by 300 page writes `%%PageBoundingBox: 0 0 500 300`. |
| `Pages.FiveHundredByThreeHundredSize` | src/page.rs:28-35 | A 500 by 300 page requests `<< /PageSize [500 300] >> setpagedevice`. |
| `Pages.FillOnlyMarkup` | src/rect.rs:132-164 | An untransformed rectangle that is filled and not stroked emits exactly one `fill`, no `stroke`, and balanced markup, and it sets the fill colour in the fill mode's operator. |
| `Pages.CmykFilledPage` | tests/integration_test.rs:67-70 | The CMYK-filled 500 by 300 page is framed with the matching lines, has one fill, no stroke and balanced markup, sets the ink with `setcmykcolor` (0.5, 1, 0.5, 0), and ends with `showpage`. |
| `Decimal.Show` | src/page.rs:28-35 | A decimal rendering is a non-empty digit string, and it starts with `0` only for zero. |
| `Decimal.ParseShow` | src/image_registry.rs:28 | Reading the rendering of n back gives n. |
| `Decimal.ShowInjective` | src/image_registry.rs:27-28 | Distinct numbers render differently. |
| `Documents.Header` | src/lib.rs:134-169 | PostScript writes `%!PS-Adobe-3.0`, creator, date, `%%Pages: (atend)` and `%%EndComments`. EPS writes `%!PS-Adobe-3.0 EPSF-3.0`, then its bounding box, creator, date, `%%Pages: 1` and `%%EndComments`. |
| `Documents.WriteBodies` | src/lib.rs:63-66 | Keeps the sink as a prefix and adds one chunk per listed procedure: the body of each, exactly once, in some order covering them all. |
| `Documents.PairBodies` | src/lib.rs:63-66 | In either order, writing two distinct procedures after any prefix adds exactly two chunks, holding both bodies once each. |
| `Documents.NewDocument` | src/lib.rs:44-68 | A new document is PostScript. Its writer gains the PostScript header, then the `rect` and `line` bodies, once each, in either order. |
| `Documents.DocumentBuilder.constructor` | src/lib.rs:84-92 | A new builder is PostScript, with no writer, a 0 by 0 box, and not built. |
| `Documents.DocumentBuilder.BoundingBox` | src/lib.rs:94-98 | Stores both sides raised to at least 1. |
| `Documents.DocumentBuilder.SetDocumentType` | src/lib.rs:100-103 | Stores the document type. |
| `Documents.DocumentBuilder.Writer` | src/lib.rs:105-108 | Stores the writer. |
| `Documents.LoadStep` | src/lib.rs:110-124 | The step `load_procedures` takes on a builder's fields. It fails with `NotBuilt` and leaves the writer alone when the builder was not built. When built without a writer, it fails with `MissingWriter` exactly when the registry is non-empty. When built with a writer, it succeeds and appends every listed body once, in some order covering them all. |
| `Documents.DocumentBuilder.LoadProcedures` | src/lib.rs:110-124 | On any builder a caller can still hold (one not consumed by `build`), it fails with `NotBuilt` and writes nothing. |
| `Documents.DocumentBuilder.Build` | src/lib.rs:126-173 | With no writer it fails with `MissingWriter`. Otherwise the document gets the writer followed by the header for its type and box, and the builder is marked built. Either way the builder is consumed, and only a consumed builder is built. |
| `Documents.LoadBeforeBuild` | tests/integration_test.rs:60-65 | The builder chain that calls `load_procedures` before `build` fails with `NotBuilt`. |
| `Documents.BuildEps` | src/lib.rs:151-168 | An EPS build with a 500 by 300 box succeeds. It appends the EPS header, whose second line is the bounding box, and that line reads `%%BoundingBox: 0 0 500 300`. |
| `Images.ProcedureName` | src/image_registry.rs:28 | A name is `imager` followed by a digit string. |
| `Images.ProcedureNamesDistinct` | src/image_registry.rs:27-28 | Distinct counter values give distinct procedure names. |
| `Images.InsertConsistent` | src/image_registry.rs:27-34 | Storing an entry under the next counter value keeps the registry consistent. |
| `Images.ImageRegistry.constructor` | src/image_registry.rs:14-19 | A new registry is empty, with the counter at 0. |
| `Images.ImageRegistry.GetProcedureId` | src/image_registry.rs:38-45 | Nothing is returned exactly when the file name was never added. Otherwise the result is `imagerN` for the counter value N the entry was added under, with 1 <= N <= count. |
| `Images.ImageRegistry.Add` | src/image_registry.rs:21-36 | A path without a file name fails and changes nothing. A full counter fails and changes nothing. Otherwise the counter rises by exactly 1 and the file name maps to `imager<count>`, replacing any earlier entry. Other names are unaffected. |
| `Images.ImageRegistry.EntryNamesDistinct` | src/image_registry.rs:27-34 | No two stored images share a procedure name. |

## Left out

- Real I/O is not modelled. Writers are sequences of chunks, and write errors (the `Result<(), Error>` of `Page::add`, `fabricate` and `Document::add`) cannot occur.
- The crate version and the creation timestamp are parameters of `Documents.Header`. The clock is not modelled.
- Number formatting is not modelled. Reals are kept as values, and how Rust prints an `f32` (including NaN and infinities) is not rendered. Integer sizes are rendered by `Decimal.Show`.
- Documents.Header: lines are listed by content only. The leading newline and the indentation that the source's raw string literals put before each line are not modelled.
- Procedures.Definition keeps the procedure body's words but not its layout whitespace.
- The order of `HashMap` iteration is unspecified. `list_procedures` is modelled as a set, and a loop over it as a choice of some order; proofs hold for every order.
- `Path::file_name` and `to_string_lossy` are not modelled. An image path comes with its file name already extracted, or none.
- Images.ImageRegistry.Add: a `u32` counter overflow is modelled as the debug-build panic (an error). A release build's wrap-around to 0 is not modelled.
- `get_procedure_id` consumes the registry in the source; the model's lookup leaves it in place.
- `Document::add` and `Document::close` are left out. `add` only forwards to `Page::fabricate`, which is modelled; `close` is not defined anywhere in the source.
- src/image.rs and src/inline_image.rs are not part of this model. No module declares them, and they hold no serialisation logic.
- The source does not compile as written, and the model follows the evident intent:
  - `ColorMode` is used but never declared; it is modelled as `RGB | CMYK`.
  - `Line::new` sets `stroke_width: 1` on an `f32`; it is modelled as 1.0.
- The stack interpreter tracks only `gsave`/`grestore` depth. The path interpreter tracks one subpath and ignores the current transformation matrix, so the `translate` a line's markup leaves in effect is not composed with its path.
- `Rect` emits `rotate` whenever rotation was switched on, even for an angle of 0 or ±360; the model follows the code (`Rects.RectPrologueOrder`).
- Colours and angles are reals, which have no NaN. A NaN channel or angle passes through `f32::clamp` unchanged in the source, so the [0, 1] colour properties (`Graphics.ClampRgb`, `Graphics.ClampCmyk`, `Lines.LineStrokeOperands`, `Rects.RectOperandsInRange`) hold for non-NaN inputs only.
- Colour arrays (`[f32; 3]`, `[f32; 4]`) and scale pairs are value records. Rust arrays are inline values, so there is no aliasing to model.

## Findings

| source | as written | input that shows it | evidently intended | confidence | as-written member | corrected member |
|---|---|---|---|---|---|---|
| src/line.rs:89-97 | After the anchor translate, `Line` pushes `x + length` and `y` as the `rlineto` offset of the built-in `line` body, which first moves to (x, y), so the segment ends at (2x + length, 2y). | x = 100, y = 100, length = 100: the segment ends at (300, 200) rather than (200, 100). | The offset is (length, 0), so the segment runs from (x, y) to (x + length, y). These are coordinates after the anchor `translate`, which `Line` never undoes, so on the page the corrected segment is still shifted by the anchor. | high, not executed | `Lines.LinePathAsWritten` (with `Lines.LineEndAsWrittenMissed`) | `Lines.LinePathIntended` |

The serialiser `Lines.LineTokens` keeps the operands as written; the intended operands are `Lines.IntendedLineOperands`.
