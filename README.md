# Rounded rectangle: a verified model of its draw routine

This project models the rounded-rectangle shape of the canvas-elements
library (`src/simple/rect.ts`). A `Rect` stores a position, a size, a corner
radius and styling. When it is constructed it draws itself straight away onto
a 2D drawing surface that other shapes may share. One draw:

1. runs the base class's draw hook;
2. pushes a rotation about the centre of the rectangle;
3. traces a closed outline, in one of two ways:
   - for a uniform radius, the radius is first clamped in place (against the
     width, then against the height) and each corner gets a tangent arc;
   - for per-corner radii, there is no clamp, and each corner gets a straight
     edge followed by an arc of that corner's own radius;
4. sets the fill style; strokes with the border width and colour, but only
   when the border width is non-zero; fills;
5. pops the rotation about the same pivot.

The drawing surface is a recorder (`Canvas.Surface`). It appends one abstract
command (`Canvas.Cmd`) per context call or style assignment to its `log`, in
call order. The commands one draw emits are described as a value by
`Simple.DrawCommands`. The class `Simple.Rect` performs the calls one at a
time, and `Draw` is proved to append exactly `DrawCommands` of the state it
started in. The properties of the routine are proved about `DrawCommands` in
module `RectProperties`: the rotation bracket, the stroke and fill counts and
their order, the shape of each outline, the clamp, and stability under
redrawing.

Files:
- `canvas.dfy`: module `Canvas`, with the command set, the recording surface,
  and command counting.
- `rect.dfy`: module `Simple`, with the radius variant, the clamp, the
  outline and painting functions, and the class `Rect`.
- `rect_properties.dfy`: module `RectProperties`, with the lemmas about one
  draw, worked scenarios of single draws (unclamped, width clamp, both
  clamps, per-corner, square), and two shapes drawn in turn on one surface.

Modelling choices:
- The radius is `Uniform(r) | PerCorner(topLeft, topRight, bottomRight, bottomLeft)`.
  This replaces the run-time array test at rect.ts:42.
- Coordinates, sizes, radii and the border width are `real`.
- A falsy border width (absent or 0) is the value `0.0`.
- Colours and the border style are opaque strings. An absent one is `""`.
- `super.draw()` is recorded as `BaseSetup`. The base's
  `rotate(pivotX, pivotY, forward)` is recorded as `Rotate(pivotX, pivotY, forward)`.
- The constructor's options become parameters. `r` and `rotation` default to
  0, as in the source. The remaining optional ones default to the
  "absent" values above.
- The surface is an object of its own. The shape holds it as `ctx` and never
  reassigns it.

rect.ts is not consistent about the radius type. The constructor declares its
option as `r?: number` (rect.ts:25). The field, however, is a number or a
4-tuple (rect.ts:5), and draw tests it with `Array.isArray` (rect.ts:42), so
it accepts both. The model's constructor takes both, like the field.

## Model

| member | source | states |
|---|---|---|
| `Simple.ClampRadius` | src/simple/rect.ts:66-67 | The radius after the two sequential checks (width, then height with the value the width check left) is min(r0, w/2, h/2). It never exceeds r0, w/2 or h/2. It equals r0 exactly when 2·r0 ≤ w and 2·r0 ≤ h. |
| `Simple.RadiusAfterDraw` | src/simple/rect.ts:42-67 | A draw keeps the radius's variant. A per-corner radius is left exactly as it was. A uniform radius becomes min(r0, w/2, h/2). |
| `Simple.Rect.constructor` | src/simple/rect.ts:23-34 | Every option is stored as given, except the radius, which is what the eager draw leaves. The surface's log grows by exactly the commands one draw of the given options emits. |
| `Simple.Rect.Draw` | src/simple/rect.ts:36-90 | Only the radius and the surface's log may change (frame `this`r, ctx`). The radius becomes `RadiusAfterDraw` of the old one. The log grows by `DrawCommands` of the fields and the old radius: the base setup, the rotate-push, the outline for the old radius (uniform: clamped), the painting, and the rotate-pop. |
| `Simple.Rect.ClampUniform` | src/simple/rect.ts:66-67 | The two in-place conditional updates (width check, then height check) leave the uniform radius at `ClampRadius(r0, w, h)`, which is min(r0, w/2, h/2). Nothing but the radius may change. |
| `Simple.Rect.TracePerCorner` | src/simple/rect.ts:44-54 | Appends the per-corner outline (`CornerPath`) to the log and nothing else. |
| `Simple.Rect.EdgeAndCorner` | src/simple/rect.ts:46-53 | Appends one straight edge and the arc that follows it, in that order, to the log and nothing else. |
| `Simple.Rect.TraceUniform` | src/simple/rect.ts:69-75 | Appends the uniform outline (`UniformPath`) for the given radius to the log and nothing else. |
| `Simple.Rect.FillAndStroke` | src/simple/rect.ts:77-85 | Appends the fill style, then the line width, stroke style and stroke only when the border width is non-zero, then the fill. The per-corner branch runs the same steps at rect.ts:55-61. |
| `Simple.Pivot` | src/simple/rect.ts:39 | The pivot `(w/2 + x, h/2 + y)` of both rotate calls: twice each coordinate is the sum of the two edges' coordinates, so it is the centre. |
| `Simple.UniformPath` | src/simple/rect.ts:69-75 | Reference definition of the seven path commands of the uniform branch for an already-clamped radius. It has seven commands, from `BeginPath` to `ClosePath`, all of them path commands. Every arc sits at positions 2 to 5 and carries that radius. `TraceUniform` is proved to emit it. |
| `Simple.CornerPath` | src/simple/rect.ts:44-54 | Reference definition of the eleven path commands of the per-corner branch. It has eleven commands, from `BeginPath` to `ClosePath`, all of them path commands. Every arc carries one of the four corner radii. `TracePerCorner` is proved to emit it. |
| `Simple.Outline` | src/simple/rect.ts:42-75 | Reference definition of the outline one draw traces. The radius held before the draw selects the branch: per-corner gives `CornerPath`, uniform gives `UniformPath` of the clamped radius. Its shape is stated by `UniformOutline`, `PerCornerOutline` and `OutlineIsPath`. |
| `Simple.Paint` | src/simple/rect.ts:55-61 | Reference definition of the styling and painting after the outline, which rect.ts:77-85 repeats: the fill style, then the stroke triple when the border width is non-zero, then the fill. `FillAndStroke` is proved to emit it. `PaintLayout` and `PaintCounts` state its properties. |
| `Simple.DrawCommands` | src/simple/rect.ts:37-88 | Reference definition of everything one draw emits: the base setup, the rotate-push about `Pivot`, the `Outline`, the `Paint` and the rotate-pop on the same pivot. `Rect.Draw` and the constructor are proved to append exactly this. `RotationBracket`, `StrokeAndFillCounts`, `PaintOrder` and `RedrawIsStable` state its properties. |
| `RectProperties.EdgeIntoCorner` | src/simple/rect.ts:45-53 | Corner k (clockwise from top-right) lies `Heading(k)` away from the previous corner, by the width along the top and bottom edges and by the height along the sides. This is the geometry `PerCornerOutline` reads the per-corner outline by. |
| `RectProperties.OutlineIsPath` | src/simple/rect.ts:44-54 | Every command of the outline, on either branch, is a path command (begin, move, line, arc, close): no styling or painting happens while the path is traced. |
| `RectProperties.ClampNonNegative` | src/simple/rect.ts:66-67 | The clamped radius is non-negative exactly when the radius, the width and the height all are. A negative width or height alone makes it negative. |
| `RectProperties.OutlineArcRadii` | src/simple/rect.ts:44-75 | Every arc of the outline has a non-negative radius exactly when `ArcRadiiFit` holds. For a uniform radius, that is a non-negative radius, width and height. For per-corner radii, it is four non-negative radii. |
| `RectProperties.NegativeWidthArc` | src/simple/rect.ts:66-71 | With width -10 and radius 0, the width check sets the radius to -5, and the first arc carries radius -5. |
| `RectProperties.PivotIsCentre` | src/simple/rect.ts:39 | The pivot `(w/2 + x, h/2 + y)` used by both rotate calls is the midpoint of both diagonals of the rectangle. |
| `RectProperties.RotationBracket` | src/simple/rect.ts:37-88 | The log of one draw starts with the base setup and a rotate-push about the pivot, and ends with a rotate-pop about the same pivot. No other rotation occurs, and every path command lies strictly between the two. |
| `RectProperties.PaintCounts` | src/simple/rect.ts:55-61 | The painting step strokes once if the border width is non-zero and never otherwise. It fills exactly once. |
| `RectProperties.PaintLayout` | src/simple/rect.ts:55-61 | The painting step opens with the background fill style and ends with the fill. A stroke occurs only when the border width is non-zero, second to last, right after the line width and stroke style. The fill style is set only at the start. |
| `RectProperties.StrokeAndFillCounts` | src/simple/rect.ts:55-85 | Over a whole draw, on either branch, `Stroke` occurs once if the border width is non-zero and never otherwise, and `Fill` occurs exactly once. |
| `RectProperties.PaintOrder` | src/simple/rect.ts:55-88 | Any stroke is third from last and directly follows `SetLineWidth(borderWidth)` and `SetStroke(borderColor)`. `Fill` is the last command before the rotate-pop, so it comes after any stroke. The only fill style set in the log is the background, and it is set before the fill. |
| `RectProperties.UniformOutline` | src/simple/rect.ts:69-75 | The uniform outline is `BeginPath`, then a move to the top edge one clamped radius right of the top-left corner. Then come four arcs, clockwise from the top-right corner, each through its corner towards the next corner and each carrying the clamped radius. Then `ClosePath`. |
| `RectProperties.PerCornerOutline` | src/simple/rect.ts:43-54 | The per-corner outline starts on the top edge, `topLeft` right of the top-left corner. For each corner, clockwise from top-right, a straight edge stops that corner's own radius short of the corner. An arc of that radius then rounds the corner towards the point the same distance along the next edge. The last arc ends at the start point, and the path closes. |
| `RectProperties.RedrawIsStable` | src/simple/rect.ts:66-75 | The radius a draw leaves is a fixed point of the next draw, and drawing again emits the same commands. If 2·r0 ≤ w and 2·r0 ≤ h, the radius is untouched from the start (`ClampRadius`). |
| `RectProperties.ScenarioUnclamped` | src/simple/rect.ts:66-88 | 100×50 with radius 10 and no border: the radius stays 10, and the full command log is given literally (fill only, no stroke). |
| `RectProperties.ScenarioWidthClamp` | src/simple/rect.ts:66-67 | 10×50 with radius 10: the width check clamps to 5, and the height check then leaves 5. |
| `RectProperties.ScenarioBothClamps` | src/simple/rect.ts:66-67 | 16×12 with radius 10: the width check gives 8, and the height check then gives 6. The second check sees the first one's result. |
| `RectProperties.ScenarioPerCorner` | src/simple/rect.ts:43-61 | Radii (5, 0, 5, 0) on 20×20 with border width 2: the radius is kept, the outline commands are given literally, and there is one stroke and one fill. |
| `RectProperties.ScenarioSquare` | src/simple/rect.ts:39-88 | Radius 0 on 20×20: every arc has radius 0, inside a rotation bracket about (10, 10). |
| `RectProperties.DrawInTurn` | src/simple/rect.ts:36-90 | Two distinct shapes drawn in turn on one surface: the log holds the first shape's commands, then the second's. Each radius is what its own shape's draw leaves, and neither draw touches the other shape. |

## Left out

- The base class `Element` (`./base`) is not part of this model. Its draw hook is recorded as `BaseSetup`. Its `rotate` is recorded as `Rotate(pivotX, pivotY, forward)`, without the rotation angle it reads and without any transform matrix. So the claim that pushing and then popping a rotation restores the surface's transform is not modelled. The model does prove that both calls use the same pivot and that they enclose the drawing.
- `RectProperties.RotationBracket`, `RectProperties.StrokeAndFillCounts`, `RectProperties.PaintOrder` and `Simple.Rect.Draw` assume a surface that accepts every call, as the recorder does. A host 2D context throws an `IndexSizeError` from `arcTo` when the radius is negative. The clamp produces one for any negative width or height (rect.ts:66-67). A negative per-corner entry (rect.ts:47-53) does the same. The source's draw (called by the constructor, and public, so callable again later) then throws at the first `arcTo` with a negative radius. In the uniform branch that is right after `BeginPath` and `MoveTo` (rect.ts:69-71). In the per-corner branch it is after the path commands up to that corner's `LineTo` (rect.ts:44-53): for a negative `topRight`, after the `LineTo` of rect.ts:46; for only `topLeft` negative, at rect.ts:53, after four `LineTo`s and three `ArcTo`s. Either way the fill and the rotate-pop (rect.ts:61-62, 85-88) never run, and the rotation stays pushed. The model does not capture that error path. `OutlineArcRadii` states exactly when the assumption holds, namely `ArcRadiiFit`: non-negative sizes and radius (uniform) or radii (per-corner).
- The geometry of the host's `arcTo` (tangent points, interpolation) and rasterisation belong to the host drawing surface, a foreign API. Each call is an opaque logged command.
- Floating-point behaviour of JavaScript numbers is not modelled: NaN or infinite sizes and radii, and NaN as a falsy border width. Values are `real`.
- A radius array without exactly four entries cannot occur: the radius is a four-field variant.
- The per-corner radius `[r, r, r, r]` and `Uniform(r)` emit different command sequences. The per-corner path has extra line commands. They are equivalent only under canvas arc semantics, so no equivalence is stated.
- `borderStyle` is stored and never read by rect.ts. It is passed to the base at rect.ts:28, whose draw hook (rect.ts:37, recorded only as `BaseSetup`) may use it, and may also set styles of its own, a fill style among them. Colour strings are passed through uninterpreted.
- Concurrency: drawing is synchronous and single-threaded, and the model is sequential.
