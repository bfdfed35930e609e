/** The 2D drawing surface, as far as the rounded rectangle uses it.

    The host context is a foreign API; here it is a recorder that appends one
    abstract command per call (or per style assignment) to a log, in call
    order.  Two entries stand for the base shape class, whose code is not part
    of this model: `BaseSetup` for its `draw()` hook and `Rotate` for its
    `rotate(pivotX, pivotY, forward)` transform push (forward) or pop. */
module Canvas {

  datatype Cmd =
    | BaseSetup
    | Rotate(px: real, py: real, forward: bool)
    | BeginPath
    | MoveTo(x: real, y: real)
    | LineTo(x: real, y: real)
    | ArcTo(x1: real, y1: real, x2: real, y2: real, radius: real)
    | ClosePath
    | SetFill(fillStyle: string)
    | SetLineWidth(lineWidth: real)
    | SetStroke(strokeStyle: string)
    | Stroke
    | Fill

  /** The commands that build a path, as opposed to styling or painting it. */
  predicate IsPathCmd(c: Cmd)
  {
    c.BeginPath? || c.MoveTo? || c.LineTo? || c.ArcTo? || c.ClosePath?
  }

  /** The number of times command `c` occurs in `s`. */
  function Count(s: seq<Cmd>, c: Cmd): (n: nat)
    ensures n <= |s|
    ensures n == 0 <==> c !in s
  {
    if s == [] then 0 else (if s[0] == c then 1 else 0) + Count(s[1..], c)
  }

  lemma {:induction false} CountAppend(a: seq<Cmd>, b: seq<Cmd>, c: Cmd)
    ensures Count(a + b, c) == Count(a, c) + Count(b, c)
  {
    if a == [] {
      assert a + b == b;
    } else {
      assert (a + b)[1..] == a[1..] + b;
      CountAppend(a[1..], b, c);
    }
  }

  lemma CountOne(a: Cmd, c: Cmd)
    ensures Count([a], c) == if a == c then 1 else 0
  {
    assert [a][1..] == [];
  }

  lemma AppendFour(log: seq<Cmd>, a: seq<Cmd>, b: seq<Cmd>, c: seq<Cmd>, d: seq<Cmd>)
    ensures log + a + b + c + d == log + (a + b + c + d)
  {
  }

  /** A recording drawing surface.  It is owned by the host application and
      may be shared by several shapes, so it is an object of its own. */
  class Surface {
    var log: seq<Cmd>

    constructor ()
      ensures log == []
    {
      log := [];
    }

    /** One call on the host context. */
    method Record(c: Cmd)
      modifies this
      ensures log == old(log) + [c]
    {
      log := log + [c];
    }
  }
}
