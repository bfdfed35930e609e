/** The rounded-rectangle shape of src/simple/rect.ts.

    A `Rect` stores its geometry and styling and, on construction, draws itself
    onto a shared drawing surface: a base-class setup, a rotation about its
    centre, a closed outline (one rounded corner radius throughout, or one per
    corner), an optional stroke, a fill, and the reverse rotation.

    The functions below describe the commands one draw emits as a value; the
    class performs them one call at a time and is proved to emit exactly that. */
module Simple {
  import opened Canvas

  /** The corner radius: one value for all four corners, or one per corner,
      listed as the source lists them. */
  datatype Radius =
    | Uniform(r: real)
    | PerCorner(topLeft: real, topRight: real, bottomRight: real, bottomLeft: real)

  datatype Point = Point(x: real, y: real)

  function Min(a: real, b: real): (m: real)
    ensures m <= a && m <= b
    ensures m == a || m == b
  {
    if a <= b then a else b
  }

  /** The clamp applied to a uniform radius: against the width first and then,
      with the value that step left, against the height. */
  function ClampRadius(r0: real, w: real, h: real): (r: real)
    ensures r == Min(r0, Min(w / 2.0, h / 2.0))
    ensures r <= r0 && 2.0 * r <= w && 2.0 * r <= h
    ensures r == r0 <==> 2.0 * r0 <= w && 2.0 * r0 <= h
  {
    var rw := if w < 2.0 * r0 then w / 2.0 else r0;
    if h < 2.0 * rw then h / 2.0 else rw
  }

  /** The radius a shape holds once it has been drawn: a uniform radius is
      clamped, a per-corner radius is left alone. */
  function RadiusAfterDraw(r: Radius, w: real, h: real): (r': Radius)
    ensures r'.Uniform? == r.Uniform?
    ensures r.PerCorner? ==> r' == r
    ensures r.Uniform? ==> r'.r == Min(r.r, Min(w / 2.0, h / 2.0))
  {
    match r
    case Uniform(r0) => Uniform(ClampRadius(r0, w, h))
    case PerCorner(_, _, _, _) => r
  }

  /** The point both rotation calls pivot on. */
  function Pivot(x: real, y: real, w: real, h: real): (c: Point)
    ensures 2.0 * c.x == x + (x + w) && 2.0 * c.y == y + (y + h)
  {
    Point(w / 2.0 + x, h / 2.0 + y)
  }

  /** Corner k of the rectangle in clockwise order from the top-right one:
      0 top-right, 1 bottom-right, 2 bottom-left, 3 top-left. */
  function Corner(x: real, y: real, w: real, h: real, k: nat): (p: Point)
    requires k < 4
  {
    if k == 0 then Point(x + w, y)
    else if k == 1 then Point(x + w, y + h)
    else if k == 2 then Point(x, y + h)
    else Point(x, y)
  }

  /** The unit direction of the edge that runs into corner k when the outline
      is traced clockwise (y grows downwards). */
  function Heading(k: nat): (d: Point)
    requires k < 4
  {
    if k == 0 then Point(1.0, 0.0)
    else if k == 1 then Point(0.0, 1.0)
    else if k == 2 then Point(-1.0, 0.0)
    else Point(0.0, -1.0)
  }

  /** The point `t` units from `p` in direction `d`. */
  function Along(p: Point, d: Point, t: real): (q: Point)
  {
    Point(p.x + t * d.x, p.y + t * d.y)
  }

  /** The radius used at corner k of a per-corner radius. */
  function CornerRadius(tl: real, tr: real, br: real, bl: real, k: nat): (rk: real)
    requires k < 4
  {
    if k == 0 then tr else if k == 1 then br else if k == 2 then bl else tl
  }

  /** The outline for a uniform radius `r` (already clamped): a move to the
      top edge, one tangent arc at each corner, and a close. */
  function UniformPath(x: real, y: real, w: real, h: real, r: real): (path: seq<Cmd>)
    ensures |path| == 7 && path[0] == BeginPath && path[6] == ClosePath
    ensures forall i :: 0 <= i < |path| ==> IsPathCmd(path[i])
    ensures forall i :: 0 <= i < |path| && path[i].ArcTo? ==> 2 <= i < 6 && path[i].radius == r
  {
    [ BeginPath,
      MoveTo(x + r, y),
      ArcTo(x + w, y, x + w, y + h, r),
      ArcTo(x + w, y + h, x, y + h, r),
      ArcTo(x, y + h, x, y, r),
      ArcTo(x, y, x + w, y, r),
      ClosePath ]
  }

  /** The outline for per-corner radii: a straight edge up to each corner's
      tangent point, then that corner's arc, clockwise, and a close. */
  function CornerPath(x: real, y: real, w: real, h: real,
                      topLeft: real, topRight: real, bottomRight: real, bottomLeft: real): (path: seq<Cmd>)
    ensures |path| == 11 && path[0] == BeginPath && path[10] == ClosePath
    ensures forall i :: 0 <= i < |path| ==> IsPathCmd(path[i])
    ensures forall i :: 0 <= i < |path| && path[i].ArcTo? ==>
      path[i].radius in {topLeft, topRight, bottomRight, bottomLeft}
  {
    [ BeginPath,
      MoveTo(x + topLeft, y),
      LineTo(x + w - topRight, y),
      ArcTo(x + w, y, x + w, y + topRight, topRight),
      LineTo(x + w, y + h - bottomRight),
      ArcTo(x + w, y + h, x + w - bottomRight, y + h, bottomRight),
      LineTo(x + bottomLeft, y + h),
      ArcTo(x, y + h, x, y + h - bottomLeft, bottomLeft),
      LineTo(x, y + topLeft),
      ArcTo(x, y, x + topLeft, y, topLeft),
      ClosePath ]
  }

  /** The outline a draw traces for the radius the shape holds before it. */
  function Outline(x: real, y: real, w: real, h: real, r: Radius): (path: seq<Cmd>)
  {
    match r
    case Uniform(r0) => UniformPath(x, y, w, h, ClampRadius(r0, w, h))
    case PerCorner(tl, tr, br, bl) => CornerPath(x, y, w, h, tl, tr, br, bl)
  }

  /** Styling and painting after the outline.  A border width of zero stands
      for the falsy values (absent or 0) that skip the stroke. */
  function Paint(background: string, borderColor: string, borderWidth: real): (cmds: seq<Cmd>)
  {
    [SetFill(background)]
    + (if borderWidth != 0.0 then [SetLineWidth(borderWidth), SetStroke(borderColor), Stroke] else [])
    + [Fill]
  }

  /** Everything one draw emits, in order. */
  function DrawCommands(x: real, y: real, w: real, h: real, r: Radius,
                        background: string, borderColor: string, borderWidth: real): (cmds: seq<Cmd>)
  {
    var c := Pivot(x, y, w, h);
    [BaseSetup, Rotate(c.x, c.y, true)]
    + Outline(x, y, w, h, r)
    + Paint(background, borderColor, borderWidth)
    + [Rotate(c.x, c.y, false)]
  }

  class Rect {
    var x: real
    var y: real
    var w: real
    var h: real
    var r: Radius
    /** Read by the base class's rotate; this class only passes it on. */
    var rotation: real
    var background: string
    var borderColor: string
    var borderWidth: real
    var borderStyle: string
    const ctx: Surface

    /** The commands the next draw will emit. */
    ghost function Commands(): (cmds: seq<Cmd>)
      reads this
    {
      DrawCommands(x, y, w, h, r, background, borderColor, borderWidth)
    }

    /** Stores the options and draws the shape straight away.  Options left
        out take the source's defaults (radius and rotation 0) or stand for an
        absent value (empty strings, border width 0). */
    constructor (x: real, y: real, w: real, h: real, ctx: Surface,
                 r: Radius := Uniform(0.0), rotation: real := 0.0,
                 borderColor: string := "", background: string := "",
                 borderWidth: real := 0.0, borderStyle: string := "")
      modifies ctx
      ensures this.x == x && this.y == y && this.w == w && this.h == h
      ensures this.rotation == rotation && this.background == background
      ensures this.borderColor == borderColor && this.borderWidth == borderWidth
      ensures this.borderStyle == borderStyle && this.ctx == ctx
      ensures this.r == RadiusAfterDraw(r, w, h)
      ensures ctx.log == old(ctx.log) + DrawCommands(x, y, w, h, r, background, borderColor, borderWidth)
    {
      this.x := x;
      this.y := y;
      this.rotation := rotation;
      this.background := background;
      this.borderWidth := borderWidth;
      this.borderColor := borderColor;
      this.borderStyle := borderStyle;
      this.ctx := ctx;
      this.r := r;
      this.w := w;
      this.h := h;
      new;
      Draw();
    }

    /** Draws the shape: only the radius (uniform case) and the surface's log
        may change, and the log grows by the commands the old state calls for. */
    method Draw()
      modifies this`r, ctx
      ensures r == RadiusAfterDraw(old(r), w, h)
      ensures ctx.log == old(ctx.log) + DrawCommands(x, y, w, h, old(r), background, borderColor, borderWidth)
    {
      ghost var log0, pivot := ctx.log, Pivot(x, y, w, h);
      ghost var outline, paint := Outline(x, y, w, h, r), Paint(background, borderColor, borderWidth);
      ghost var push, pop := [BaseSetup, Rotate(pivot.x, pivot.y, true)], [Rotate(pivot.x, pivot.y, false)];

      ctx.Record(BaseSetup);
      ctx.Record(Rotate(w / 2.0 + x, h / 2.0 + y, true));
      assert ctx.log == log0 + push;

      if r.PerCorner? {
        TracePerCorner(r.topLeft, r.topRight, r.bottomRight, r.bottomLeft);
        FillAndStroke();
        ctx.Record(Rotate(w / 2.0 + x, h / 2.0 + y, false));
        AppendFour(log0, push, outline, paint, pop);
        return;
      }

      ClampUniform();

      TraceUniform(r.r);
      FillAndStroke();

      ctx.Record(Rotate(w / 2.0 + x, h / 2.0 + y, false));
      AppendFour(log0, push, outline, paint, pop);
    }

    /** Clamps a uniform radius in place, against the width and then against
        the height, so that twice the radius fits both. */
    method ClampUniform()
      requires r.Uniform?
      modifies this`r
      ensures r == Uniform(ClampRadius(old(r).r, w, h))
    {
      if w < 2.0 * r.r { r := Uniform(w / 2.0); }
      if h < 2.0 * r.r { r := Uniform(h / 2.0); }
    }

    /** The per-corner outline: an edge and an arc for each corner, clockwise
        from the top-right one. */
    method TracePerCorner(topLeft: real, topRight: real, bottomRight: real, bottomLeft: real)
      modifies ctx
      ensures ctx.log == old(ctx.log) + CornerPath(x, y, w, h, topLeft, topRight, bottomRight, bottomLeft)
    {
      ctx.Record(BeginPath);
      ctx.Record(MoveTo(x + topLeft, y));
      EdgeAndCorner(Point(x + w - topRight, y), Point(x + w, y), Point(x + w, y + topRight), topRight);
      EdgeAndCorner(Point(x + w, y + h - bottomRight), Point(x + w, y + h), Point(x + w - bottomRight, y + h), bottomRight);
      EdgeAndCorner(Point(x + bottomLeft, y + h), Point(x, y + h), Point(x, y + h - bottomLeft), bottomLeft);
      EdgeAndCorner(Point(x, y + topLeft), Point(x, y), Point(x + topLeft, y), topLeft);
      ctx.Record(ClosePath);
    }

    /** One side of the per-corner outline: a straight edge to `edgeEnd`, then
        an arc of `radius` at `corner` towards `next`. */
    method EdgeAndCorner(edgeEnd: Point, corner: Point, next: Point, radius: real)
      modifies ctx
      ensures ctx.log == old(ctx.log) + [LineTo(edgeEnd.x, edgeEnd.y), ArcTo(corner.x, corner.y, next.x, next.y, radius)]
    {
      ctx.Record(LineTo(edgeEnd.x, edgeEnd.y));
      ctx.Record(ArcTo(corner.x, corner.y, next.x, next.y, radius));
    }

    /** The uniform outline with corner radius `radius`: an arc at each corner,
        clockwise from the top-right one. */
    method TraceUniform(radius: real)
      modifies ctx
      ensures ctx.log == old(ctx.log) + UniformPath(x, y, w, h, radius)
    {
      ctx.Record(BeginPath);
      ctx.Record(MoveTo(x + radius, y));
      ctx.Record(ArcTo(x + w, y, x + w, y + h, radius));
      ctx.Record(ArcTo(x + w, y + h, x, y + h, radius));
      ctx.Record(ArcTo(x, y + h, x, y, radius));
      ctx.Record(ArcTo(x, y, x + w, y, radius));
      ctx.Record(ClosePath);
    }

    /** The fill style, then the stroke when the border width is non-zero, then
        the fill. */
    method FillAndStroke()
      modifies ctx
      ensures ctx.log == old(ctx.log) + Paint(background, borderColor, borderWidth)
    {
      ctx.Record(SetFill(background));
      if borderWidth != 0.0 {
        ctx.Record(SetLineWidth(borderWidth));
        ctx.Record(SetStroke(borderColor));
        ctx.Record(Stroke);
      }
      ctx.Record(Fill);
    }
  }
}
