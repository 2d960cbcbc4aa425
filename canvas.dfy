// The 2D drawing context as an append-only log of the calls and property
// assignments the loader makes on it, and a small interpreter that says what
// a log paints given the context's shared state (globalAlpha, fillStyle and
// the current path).

module Canvas {
  import opened JsValues

  /** One call or property assignment on the context. Every arc the loader
      draws spans the angles 0 to Math.PI*2, anticlockwise; those angles are
      left implicit. */
  datatype Command =
    | ClearRect(x: real, y: real, w: real, h: real)
    | SetGlobalAlpha(alpha: real)
    | SetFillStyle(style: JsValue)
    | FillRect(x: real, y: real, w: real, h: real)
    | BeginPath
    | Arc(cx: real, cy: real, radius: real)
    | Fill

  /** The context, reduced to the commands it has received. */
  class Context {
    var log: seq<Command>

    constructor ()
      ensures log == []
    {
      log := [];
    }

    method ClearRect(x: real, y: real, w: real, h: real)
      modifies this
      ensures log == old(log) + [Command.ClearRect(x, y, w, h)]
    {
      log := log + [Command.ClearRect(x, y, w, h)];
    }

    method SetGlobalAlpha(alpha: real)
      modifies this
      ensures log == old(log) + [Command.SetGlobalAlpha(alpha)]
    {
      log := log + [Command.SetGlobalAlpha(alpha)];
    }

    method SetFillStyle(style: JsValue)
      modifies this
      ensures log == old(log) + [Command.SetFillStyle(style)]
    {
      log := log + [Command.SetFillStyle(style)];
    }

    method FillRect(x: real, y: real, w: real, h: real)
      modifies this
      ensures log == old(log) + [Command.FillRect(x, y, w, h)]
    {
      log := log + [Command.FillRect(x, y, w, h)];
    }

    method BeginPath()
      modifies this
      ensures log == old(log) + [Command.BeginPath]
    {
      log := log + [Command.BeginPath];
    }

    method Arc(cx: real, cy: real, radius: real)
      modifies this
      ensures log == old(log) + [Command.Arc(cx, cy, radius)]
    {
      log := log + [Command.Arc(cx, cy, radius)];
    }

    method Fill()
      modifies this
      ensures log == old(log) + [Command.Fill]
    {
      log := log + [Command.Fill];
    }
  }

  /** A full circle in the current path. */
  datatype Circle = Circle(cx: real, cy: real, radius: real)

  /** The context state that commands share. */
  datatype PaintState = PaintState(alpha: real, style: JsValue, path: seq<Circle>)

  /** What reaches the surface. */
  datatype Paint =
    | Cleared(x: real, y: real, w: real, h: real)
    | FilledRect(alpha: real, style: JsValue, x: real, y: real, w: real, h: real)
    | FilledPath(alpha: real, style: JsValue, path: seq<Circle>)

  /** The state after one command. An alpha outside [0, 1] is ignored by the
      context, as the canvas API prescribes. */
  function Exec(c: Command, s: PaintState): PaintState
  {
    match c
    case SetGlobalAlpha(a) => if 0.0 <= a <= 1.0 then s.(alpha := a) else s
    case SetFillStyle(style) => s.(style := style)
    case BeginPath => s.(path := [])
    case Arc(cx, cy, r) => s.(path := s.path + [Circle(cx, cy, r)])
    case _ => s
  }

  /** What one command paints. */
  function Emit(c: Command, s: PaintState): seq<Paint>
  {
    match c
    case ClearRect(x, y, w, h) => [Cleared(x, y, w, h)]
    case FillRect(x, y, w, h) => [FilledRect(s.alpha, s.style, x, y, w, h)]
    case Fill => [FilledPath(s.alpha, s.style, s.path)]
    case _ => []
  }

  /** The state after a sequence of commands. */
  function After(cs: seq<Command>, s: PaintState): PaintState
    decreases |cs|
  {
    if cs == [] then s else After(cs[1..], Exec(cs[0], s))
  }

  /** What a sequence of commands paints, in order. */
  function Paints(cs: seq<Command>, s: PaintState): seq<Paint>
    decreases |cs|
  {
    if cs == [] then [] else Emit(cs[0], s) + Paints(cs[1..], Exec(cs[0], s))
  }

  /** Running two logs one after the other paints what each paints, the
      second from the state the first leaves. */
  lemma {:induction false} PaintsAppend(a: seq<Command>, b: seq<Command>, s: PaintState)
    ensures Paints(a + b, s) == Paints(a, s) + Paints(b, After(a, s))
    ensures After(a + b, s) == After(b, After(a, s))
    decreases |a|
  {
    if a != [] {
      assert (a + b)[0] == a[0];
      assert (a + b)[1..] == a[1..] + b;
      PaintsAppend(a[1..], b, Exec(a[0], s));
    } else {
      assert a + b == b;
    }
  }
}
