/** What one draw of a rounded rectangle emits, stated as properties of
    `DrawCommands` (which `Rect.Draw` is proved to append to the surface). */
module RectProperties {
  import opened Canvas
  import opened Simple

  function Move(p: Point): (c: Cmd) { MoveTo(p.x, p.y) }
  function Line(p: Point): (c: Cmd) { LineTo(p.x, p.y) }
  function Arc(corner: Point, next: Point, radius: real): (c: Cmd) { ArcTo(corner.x, corner.y, next.x, next.y, radius) }

  /** The rotation pivot is the centre of the rectangle: the midpoint of both diagonals. */
  lemma PivotIsCentre(x: real, y: real, w: real, h: real)
    ensures var c, tl, br := Pivot(x, y, w, h), Corner(x, y, w, h, 3), Corner(x, y, w, h, 1);
      2.0 * c.x == tl.x + br.x && 2.0 * c.y == tl.y + br.y
    ensures var c, tr, bl := Pivot(x, y, w, h), Corner(x, y, w, h, 0), Corner(x, y, w, h, 2);
      2.0 * c.x == tr.x + bl.x && 2.0 * c.y == tr.y + bl.y
  {
  }

  /** The edge into corner k, traced clockwise, runs from the previous
      corner in direction `Heading(k)`, for the width along the top and the
      bottom edge and for the height along the two sides. */
  lemma EdgeIntoCorner(x: real, y: real, w: real, h: real, k: nat)
    requires k < 4
    ensures Corner(x, y, w, h, k) == Along(Corner(x, y, w, h, (k + 3) % 4), Heading(k), if k % 2 == 0 then w else h)
  {
  }

  /** The outline itself contains only path commands. */
  lemma OutlineIsPath(x: real, y: real, w: real, h: real, r: Radius)
    ensures forall i :: 0 <= i < |Outline(x, y, w, h, r)| ==> IsPathCmd(Outline(x, y, w, h, r)[i])
  {
  }

  /** Every draw is one rotation bracket: the base setup, then a push about
      the pivot, then everything else, then the pop about the same pivot, and
      no other rotation in between. */
  lemma RotationBracket(x: real, y: real, w: real, h: real, r: Radius,
                        background: string, borderColor: string, borderWidth: real)
    ensures var log, c := DrawCommands(x, y, w, h, r, background, borderColor, borderWidth), Pivot(x, y, w, h);
      && |log| >= 4
      && log[0] == BaseSetup
      && log[1] == Rotate(c.x, c.y, true)
      && log[|log| - 1] == Rotate(c.x, c.y, false)
      && (forall i :: 0 <= i < |log| && log[i].Rotate? ==> i == 1 || i == |log| - 1)
      && (forall i :: 0 <= i < |log| && IsPathCmd(log[i]) ==> 1 < i < |log| - 1)
  {
  }

  /** Painting strokes exactly when the border width is non-zero and fills exactly once. */
  lemma PaintCounts(background: string, borderColor: string, borderWidth: real)
    ensures Count(Paint(background, borderColor, borderWidth), Stroke) == if borderWidth != 0.0 then 1 else 0
    ensures Count(Paint(background, borderColor, borderWidth), Fill) == 1
  {
    CountOne(Fill, Stroke);
    CountOne(Fill, Fill);
    if borderWidth != 0.0 {
      var styles := [SetFill(background), SetLineWidth(borderWidth), SetStroke(borderColor)];
      assert Paint(background, borderColor, borderWidth) == styles + [Stroke] + [Fill];
      CountAppend(styles + [Stroke], [Fill], Stroke);
      CountAppend(styles + [Stroke], [Fill], Fill);
      CountAppend(styles, [Stroke], Stroke);
      CountAppend(styles, [Stroke], Fill);
      CountOne(Stroke, Stroke);
      CountOne(Stroke, Fill);
    } else {
      assert Paint(background, borderColor, borderWidth) == [SetFill(background)] + [Fill];
      CountAppend([SetFill(background)], [Fill], Stroke);
      CountAppend([SetFill(background)], [Fill], Fill);
    }
  }

  /** Stroke and fill are counted over the whole draw: the bracket and the
      outline hold neither, so the counts are those of the painting step. */
  lemma StrokeAndFillCounts(x: real, y: real, w: real, h: real, r: Radius,
                            background: string, borderColor: string, borderWidth: real)
    ensures var log := DrawCommands(x, y, w, h, r, background, borderColor, borderWidth);
      && Count(log, Stroke) == (if borderWidth != 0.0 then 1 else 0)
      && Count(log, Fill) == 1
  {
    var c := Pivot(x, y, w, h);
    var front := [BaseSetup, Rotate(c.x, c.y, true)] + Outline(x, y, w, h, r);
    var paint := Paint(background, borderColor, borderWidth);
    OutlineIsPath(x, y, w, h, r);
    assert Stroke !in front && Fill !in front;
    PaintCounts(background, borderColor, borderWidth);
    CountBetween(front, paint, Rotate(c.x, c.y, false), Stroke);
    CountBetween(front, paint, Rotate(c.x, c.y, false), Fill);
  }

  /** A command that occurs neither before nor after `mid` is counted in `mid` alone. */
  lemma CountBetween(front: seq<Cmd>, mid: seq<Cmd>, last: Cmd, c: Cmd)
    requires c !in front && c != last
    ensures Count(front + mid + [last], c) == Count(mid, c)
  {
    CountAppend(front + mid, [last], c);
    CountAppend(front, mid, c);
    CountOne(last, c);
  }

  /** The layout of the painting step: the fill style first, the fill last,
      and a stroke only second to last, right after its line width and stroke
      style, and only when the border width is non-zero. */
  lemma PaintLayout(background: string, borderColor: string, borderWidth: real)
    ensures var paint := Paint(background, borderColor, borderWidth);
      && |paint| >= 2
      && paint[0] == SetFill(background)
      && paint[|paint| - 1] == Fill
      && (forall j :: 0 <= j < |paint| && paint[j] == Stroke ==>
            borderWidth != 0.0 && j == |paint| - 2
            && paint[j - 2] == SetLineWidth(borderWidth) && paint[j - 1] == SetStroke(borderColor))
      && (forall j :: 0 <= j < |paint| && paint[j].SetFill? ==> j == 0)
  {
  }

  /** Painting placed after any commands that neither stroke nor set a fill
      style, and followed by one closing command of the same kind. */
  lemma PaintAfterPrefix(front: seq<Cmd>, background: string, borderColor: string, borderWidth: real, last: Cmd)
    requires forall i :: 0 <= i < |front| ==> front[i] != Stroke && !front[i].SetFill?
    requires last != Stroke && !last.SetFill?
    ensures var log := front + Paint(background, borderColor, borderWidth) + [last];
      && log[|log| - 2] == Fill
      && (forall i :: 0 <= i < |log| && log[i] == Stroke ==>
            borderWidth != 0.0 && i == |log| - 3
            && log[i - 2] == SetLineWidth(borderWidth) && log[i - 1] == SetStroke(borderColor))
      && (forall i :: 0 <= i < |log| && log[i].SetFill? ==> log[i] == SetFill(background) && i < |log| - 2)
      && SetFill(background) in log[..|log| - 2]
  {
    var paint := Paint(background, borderColor, borderWidth);
    var log := front + paint + [last];
    PaintLayout(background, borderColor, borderWidth);
    var p := |front|;
    assert log[p] == SetFill(background) && log[..|log| - 2][p] == log[p];
    forall i | 0 <= i < |log|
      ensures log[i] == Stroke ==>
            borderWidth != 0.0 && i == |log| - 3
            && log[i - 2] == SetLineWidth(borderWidth) && log[i - 1] == SetStroke(borderColor)
      ensures log[i].SetFill? ==> log[i] == SetFill(background) && i < |log| - 2
    {
      if i < p {
        assert log[i] == front[i];
      } else if i < p + |paint| {
        assert log[i] == paint[i - p];
        if log[i] == Stroke {
          assert log[i - 2] == paint[i - p - 2] && log[i - 1] == paint[i - p - 1];
        }
      } else {
        assert log[i] == last;
      }
    }
  }

  /** Where painting happens in the log: a stroke, when there is one, comes
      right after its line width and stroke style; the fill is the last
      command before the closing pop, after any stroke; the only fill style
      set is the background, and it is set before the fill. */
  lemma PaintOrder(x: real, y: real, w: real, h: real, r: Radius,
                   background: string, borderColor: string, borderWidth: real)
    ensures var log := DrawCommands(x, y, w, h, r, background, borderColor, borderWidth);
      && |log| >= 4
      && log[|log| - 2] == Fill
      && (forall i :: 0 <= i < |log| && log[i] == Stroke ==>
            borderWidth != 0.0 && i == |log| - 3
            && log[i - 2] == SetLineWidth(borderWidth) && log[i - 1] == SetStroke(borderColor))
      && (forall i :: 0 <= i < |log| && log[i].SetFill? ==> log[i] == SetFill(background) && i < |log| - 2)
      && SetFill(background) in log[..|log| - 2]
  {
    var c := Pivot(x, y, w, h);
    var push, outline := [BaseSetup, Rotate(c.x, c.y, true)], Outline(x, y, w, h, r);
    OutlineIsPath(x, y, w, h, r);
    forall i | 0 <= i < |push + outline|
      ensures (push + outline)[i] != Stroke && !(push + outline)[i].SetFill?
    {
      if i >= 2 {
        assert (push + outline)[i] == outline[i - 2];
      }
    }
    PaintAfterPrefix(push + outline, background, borderColor, borderWidth, Rotate(c.x, c.y, false));
  }

  /** The uniform outline: it starts on the top edge `radius` to the right of
      the top-left corner, then rounds each corner clockwise from the
      top-right one with an arc through that corner towards the next, every
      arc carrying the clamped radius, and closes. */
  lemma UniformOutline(x: real, y: real, w: real, h: real, r0: real)
    ensures var path, radius := Outline(x, y, w, h, Uniform(r0)), ClampRadius(r0, w, h);
      && |path| == 7
      && path[0] == BeginPath
      && path[1] == Move(Along(Corner(x, y, w, h, 3), Heading(0), radius))
      && (forall i :: 2 <= i < 6 ==>
            path[i] == Arc(Corner(x, y, w, h, i - 2), Corner(x, y, w, h, (i - 1) % 4), radius))
      && path[6] == ClosePath
  {
  }

  /** The per-corner outline: it starts on the top edge `topLeft` to the
      right of the top-left corner; for each corner, clockwise from the
      top-right one, a straight edge stops that corner's own radius short of
      the corner and an arc of that radius rounds it towards the point the
      same distance along the next edge; the last arc ends where the outline
      started, and the path closes. */
  lemma PerCornerOutline(x: real, y: real, w: real, h: real,
                         topLeft: real, topRight: real, bottomRight: real, bottomLeft: real)
    ensures var path, start := Outline(x, y, w, h, PerCorner(topLeft, topRight, bottomRight, bottomLeft)),
                               Along(Corner(x, y, w, h, 3), Heading(0), topLeft);
      && |path| == 11
      && path[0] == BeginPath
      && path[1] == Move(start)
      && (forall k: nat :: k < 4 ==>
            var rk, ck := CornerRadius(topLeft, topRight, bottomRight, bottomLeft, k), Corner(x, y, w, h, k);
            && path[2 + 2 * k] == Line(Along(ck, Heading(k), -rk))
            && path[3 + 2 * k] == Arc(ck, Along(ck, Heading((k + 1) % 4), rk), rk))
      && path[9] == Arc(Corner(x, y, w, h, 3), start, topLeft)
      && path[10] == ClosePath
  {
  }

  /** The sizes and radii for which every corner arc of the outline has a
      non-negative radius, the only radii a host surface accepts. */
  predicate ArcRadiiFit(w: real, h: real, r: Radius)
  {
    match r
    case Uniform(r0) => 0.0 <= r0 && 0.0 <= w && 0.0 <= h
    case PerCorner(tl, tr, br, bl) => 0.0 <= tl && 0.0 <= tr && 0.0 <= br && 0.0 <= bl
  }

  /** The clamped radius is non-negative exactly when the radius, the width
      and the height all are: a negative width or height alone makes it negative. */
  lemma ClampNonNegative(r0: real, w: real, h: real)
    ensures 0.0 <= ClampRadius(r0, w, h) <==> 0.0 <= r0 && 0.0 <= w && 0.0 <= h
  {
  }

  /** Every arc of the outline has a non-negative radius exactly when
      `ArcRadiiFit` holds; otherwise some arc carries a negative radius. */
  lemma OutlineArcRadii(x: real, y: real, w: real, h: real, r: Radius)
    ensures var path := Outline(x, y, w, h, r);
      (forall i :: 0 <= i < |path| && path[i].ArcTo? ==> 0.0 <= path[i].radius) <==> ArcRadiiFit(w, h, r)
  {
    var path := Outline(x, y, w, h, r);
    match r
    case Uniform(r0) =>
      ClampNonNegative(r0, w, h);
      assert path[2].ArcTo? && path[2].radius == ClampRadius(r0, w, h);
    case PerCorner(tl, tr, br, bl) =>
      assert path[3].radius == tr && path[5].radius == br && path[7].radius == bl && path[9].radius == tl;
  }

  /** A negative width turns even a zero radius negative: width -10 gives
      arcs of radius -5, which a host surface rejects. */
  lemma NegativeWidthArc()
    ensures ClampRadius(0.0, -10.0, 10.0) == -5.0
    ensures Outline(0.0, 0.0, -10.0, 10.0, Uniform(0.0))[2] == ArcTo(-10.0, 0.0, -10.0, 10.0, -5.0)
  {
  }

  /** Drawing again changes nothing further: the radius a draw leaves is a
      fixed point of the clamp, and redrawing emits the same commands. */
  lemma RedrawIsStable(x: real, y: real, w: real, h: real, r: Radius,
                       background: string, borderColor: string, borderWidth: real)
    ensures RadiusAfterDraw(RadiusAfterDraw(r, w, h), w, h) == RadiusAfterDraw(r, w, h)
    ensures DrawCommands(x, y, w, h, RadiusAfterDraw(r, w, h), background, borderColor, borderWidth)
         == DrawCommands(x, y, w, h, r, background, borderColor, borderWidth)
  {
  }

  /** A 100 by 50 rectangle with radius 10 keeps its radius and is filled, not stroked. */
  lemma ScenarioUnclamped()
    ensures DrawCommands(0.0, 0.0, 100.0, 50.0, Uniform(10.0), "#fff", "", 0.0)
         == [ BaseSetup, Rotate(50.0, 25.0, true),
              BeginPath, MoveTo(10.0, 0.0),
              ArcTo(100.0, 0.0, 100.0, 50.0, 10.0), ArcTo(100.0, 50.0, 0.0, 50.0, 10.0),
              ArcTo(0.0, 50.0, 0.0, 0.0, 10.0), ArcTo(0.0, 0.0, 100.0, 0.0, 10.0),
              ClosePath, SetFill("#fff"), Fill, Rotate(50.0, 25.0, false) ]
    ensures RadiusAfterDraw(Uniform(10.0), 100.0, 50.0) == Uniform(10.0)
  {
  }

  /** A 10 by 50 rectangle with radius 10: the width check halves the radius to
      5, and the height check then leaves it. */
  lemma ScenarioWidthClamp()
    ensures RadiusAfterDraw(Uniform(10.0), 10.0, 50.0) == Uniform(5.0)
  {
  }

  /** The clamp uses the width-clamped value for the height check: radius 10,
      width 16 and height 12 end at 6, the half height. */
  lemma ScenarioBothClamps()
    ensures RadiusAfterDraw(Uniform(10.0), 16.0, 12.0) == Uniform(6.0)
  {
  }

  /** Per-corner radii (5, 0, 5, 0) on a 20 by 20 square with a border of 2:
      the radius is kept, squared corners get zero-radius arcs, and the shape
      is stroked once and filled once. */
  lemma ScenarioPerCorner()
    ensures RadiusAfterDraw(PerCorner(5.0, 0.0, 5.0, 0.0), 20.0, 20.0) == PerCorner(5.0, 0.0, 5.0, 0.0)
    ensures var log := DrawCommands(0.0, 0.0, 20.0, 20.0, PerCorner(5.0, 0.0, 5.0, 0.0), "#000", "#f00", 2.0);
      && log[2..13] == [ BeginPath, MoveTo(5.0, 0.0),
                         LineTo(20.0, 0.0), ArcTo(20.0, 0.0, 20.0, 0.0, 0.0),
                         LineTo(20.0, 15.0), ArcTo(20.0, 20.0, 15.0, 20.0, 5.0),
                         LineTo(0.0, 20.0), ArcTo(0.0, 20.0, 0.0, 20.0, 0.0),
                         LineTo(0.0, 5.0), ArcTo(0.0, 0.0, 5.0, 0.0, 5.0),
                         ClosePath ]
      && Count(log, Stroke) == 1 && Count(log, Fill) == 1
  {
    var r := PerCorner(5.0, 0.0, 5.0, 0.0);
    var log := DrawCommands(0.0, 0.0, 20.0, 20.0, r, "#000", "#f00", 2.0);
    var push, outline := [BaseSetup, Rotate(10.0, 10.0, true)], Outline(0.0, 0.0, 20.0, 20.0, r);
    var rest := Paint("#000", "#f00", 2.0) + [Rotate(10.0, 10.0, false)];
    assert log == push + outline + rest;
    assert log[2..13] == outline;
    StrokeAndFillCounts(0.0, 0.0, 20.0, 20.0, r, "#000", "#f00", 2.0);
  }

  /** Radius 0 on a 20 by 20 square: every arc has radius 0 (a plain square),
      inside a rotation bracket about (10, 10). */
  lemma ScenarioSquare()
    ensures var log := DrawCommands(0.0, 0.0, 20.0, 20.0, Uniform(0.0), "#000", "", 0.0);
      && log[1] == Rotate(10.0, 10.0, true) && log[|log| - 1] == Rotate(10.0, 10.0, false)
      && (forall i :: 0 <= i < |log| && log[i].ArcTo? ==> log[i].radius == 0.0)
  {
  }

  /** Two shapes drawn in turn on one surface: the log holds the first
      shape's commands and then the second's, and each shape's radius is
      what its own draw leaves; neither draw touches the other shape. */
  method DrawInTurn(a: Rect, b: Rect)
    requires a != b && a.ctx == b.ctx
    modifies a`r, b`r, a.ctx
    ensures a.r == RadiusAfterDraw(old(a.r), a.w, a.h)
    ensures b.r == RadiusAfterDraw(old(b.r), b.w, b.h)
    ensures a.ctx.log == old(a.ctx.log) + old(a.Commands()) + old(b.Commands())
  {
    a.Draw();
    b.Draw();
  }
}
