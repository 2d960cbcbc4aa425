// The loader proper: the dots, the loader that owns them and repaints them
// on its context, and the state of one canvasLoaderReplace call (its merged
// settings and its registry of loaders, driven by the repeating timer).

module Loader {
  import opened JsValues
  import opened Options
  import opened Opacity
  import opened Canvas

  /** What a dot holds: its position relative to the loader's centre, its
      radius and color, and its opacity in eighths. */
  datatype DotView = DotView(x: real, y: real, radius: real, color: JsValue, eighths: int)

  /** The dot after one opacity update; nothing but the opacity changes. */
  function Advanced(d: DotView): DotView
  {
    d.(eighths := Step(d.eighths))
  }

  /** Every dot's opacity is one of the nine states 0..8 eighths. */
  predicate InRange(ds: seq<DotView>)
  {
    forall k | 0 <= k < |ds| :: 0 <= ds[k].eighths <= NumDots
  }

  /** All dots after one opacity update each. */
  function AdvanceAll(ds: seq<DotView>): seq<DotView>
  {
    seq(|ds|, k requires 0 <= k < |ds| => Advanced(ds[k]))
  }

  /** The dots a freshly built loader holds: dot i (stored at i - 1) sits at
      the i-th position and starts at i eighths. */
  function InitialDots(positions: seq<(real, real)>, dotRadius: real, color: JsValue): seq<DotView>
    requires |positions| == NumDots
  {
    seq(NumDots, j requires 0 <= j < NumDots =>
      DotView(positions[j].0, positions[j].1, dotRadius, color, j + 1))
  }

  /** What one dot's draw puts on the context: a new path, its opacity as
      globalAlpha, its color as fillStyle, its circle offset by half the
      loader's radius, and the fill. */
  function DotCommands(d: DotView, parentRadius: real): seq<Command>
  {
    [ BeginPath,
      SetGlobalAlpha(Alpha(d.eighths)),
      SetFillStyle(d.color),
      Arc(d.x + parentRadius / 2.0, d.y + parentRadius / 2.0, d.radius),
      Fill ]
  }

  /** The draws of several dots, in index order. */
  function DotsCommands(ds: seq<DotView>, parentRadius: real): seq<Command>
  {
    if ds == [] then []
    else DotsCommands(ds[..|ds| - 1], parentRadius) + DotCommands(ds[|ds| - 1], parentRadius)
  }

  /** Drawing one more dot appends that dot's commands. */
  lemma DotsCommandsSnoc(ds: seq<DotView>, j: nat, parentRadius: real)
    requires j < |ds|
    ensures DotsCommands(ds[..j + 1], parentRadius) == DotsCommands(ds[..j], parentRadius) + DotCommands(ds[j], parentRadius)
  {
    assert ds[..j + 1][..j] == ds[..j];
  }

  /** Clearing the loader's square and filling it with the background. */
  function BackgroundCommands(radius: real, background: JsValue): seq<Command>
  {
    [ ClearRect(0.0, 0.0, radius, radius),
      SetGlobalAlpha(1.0),
      SetFillStyle(background),
      FillRect(0.0, 0.0, radius, radius) ]
  }

  /** The commands of one repaint of a loader whose dots were `ds` before it:
      the background, then every dot, each with its already updated opacity. */
  function DrawTrace(radius: real, background: JsValue, ds: seq<DotView>): seq<Command>
  {
    BackgroundCommands(radius, background) + DotsCommands(AdvanceAll(ds), radius)
  }

  /** The filled circle a dot leaves on the surface. */
  function DotPaint(d: DotView, parentRadius: real): Paint
  {
    FilledPath(Alpha(d.eighths), d.color,
      [Circle(d.x + parentRadius / 2.0, d.y + parentRadius / 2.0, d.radius)])
  }

  /** The filled circles of several dots, in index order. */
  function DotsPaints(ds: seq<DotView>, parentRadius: real): seq<Paint>
  {
    if ds == [] then []
    else DotsPaints(ds[..|ds| - 1], parentRadius) + [DotPaint(ds[|ds| - 1], parentRadius)]
  }

  /** A dot's draw paints exactly its own circle with its own opacity and
      color, whatever alpha, style and path the context held before. */
  lemma DotPaintsOwnCircle(d: DotView, parentRadius: real, s: PaintState)
    requires 0 <= d.eighths <= NumDots
    ensures Paints(DotCommands(d, parentRadius), s) == [DotPaint(d, parentRadius)]
  {
    var cs := DotCommands(d, parentRadius);
    var s1 := Exec(cs[0], s);
    var s2 := Exec(cs[1], s1);
    var s3 := Exec(cs[2], s2);
    var s4 := Exec(cs[3], s3);
    assert s4.alpha == Alpha(d.eighths) && s4.style == d.color;
    assert s4.path == [Circle(d.x + parentRadius / 2.0, d.y + parentRadius / 2.0, d.radius)];
    assert cs[4..][1..] == [];
    assert Paints(cs[4..], s4) == [DotPaint(d, parentRadius)];
    assert cs[3..][1..] == cs[4..];
    assert Paints(cs[3..], s3) == Paints(cs[4..], s4);
    assert cs[2..][1..] == cs[3..];
    assert Paints(cs[2..], s2) == Paints(cs[3..], s3);
    assert cs[1..][1..] == cs[2..];
    assert Paints(cs[1..], s1) == Paints(cs[2..], s2);
  }

  /** Drawing dots one after another paints each dot's circle with that
      dot's opacity and color: no state leaks from one dot to the next. */
  lemma {:induction false} DotsPaintInOrder(ds: seq<DotView>, parentRadius: real, s: PaintState)
    requires InRange(ds)
    ensures Paints(DotsCommands(ds, parentRadius), s) == DotsPaints(ds, parentRadius)
  {
    if ds != [] {
      var init, last := ds[..|ds| - 1], ds[|ds| - 1];
      PaintsAppend(DotsCommands(init, parentRadius), DotCommands(last, parentRadius), s);
      DotsPaintInOrder(init, parentRadius, s);
      DotPaintsOwnCircle(last, parentRadius, After(DotsCommands(init, parentRadius), s));
    }
  }

  /** What one repaint shows, from any context state: the square cleared, the
      background filled at full opacity, then every dot's circle at its
      updated opacity and in its color, in index order. */
  lemma DrawPaints(radius: real, background: JsValue, ds: seq<DotView>, s: PaintState)
    requires InRange(ds)
    ensures Paints(DrawTrace(radius, background, ds), s) ==
      [Cleared(0.0, 0.0, radius, radius), FilledRect(1.0, background, 0.0, 0.0, radius, radius)]
      + DotsPaints(AdvanceAll(ds), radius)
  {
    var bg := BackgroundCommands(radius, background);
    PaintsAppend(bg, DotsCommands(AdvanceAll(ds), radius), s);
    var s1 := Exec(bg[0], s);
    var s2 := Exec(bg[1], s1);
    var s3 := Exec(bg[2], s2);
    assert s3.alpha == 1.0 && s3.style == background;
    assert bg[3..][1..] == [];
    assert Paints(bg[3..], s3) == [FilledRect(1.0, background, 0.0, 0.0, radius, radius)];
    assert bg[2..][1..] == bg[3..];
    assert Paints(bg[2..], s2) == Paints(bg[3..], s3);
    assert bg[1..][1..] == bg[2..];
    assert Paints(bg[1..], s1) == Paints(bg[2..], s2);
    assert Paints(bg, s) == [Cleared(0.0, 0.0, radius, radius), FilledRect(1.0, background, 0.0, 0.0, radius, radius)];
    DotsPaintInOrder(AdvanceAll(ds), radius, After(bg, s));
  }

  /** The dot part of a repaint, position by position: five commands per
      dot, dot k's at 5k. */
  lemma {:induction false} DrawTraceLayout(ds: seq<DotView>, parentRadius: real, k: nat)
    requires k < |ds|
    ensures |DotsCommands(ds, parentRadius)| == 5 * |ds|
    ensures DotsCommands(ds, parentRadius)[5 * k .. 5 * k + 5] == DotCommands(ds[k], parentRadius)
  {
    var init := ds[..|ds| - 1];
    if k < |ds| - 1 {
      DrawTraceLayout(init, parentRadius, k);
      assert init[k] == ds[k];
      assert DotsCommands(ds, parentRadius)[5 * k .. 5 * k + 5] == DotsCommands(init, parentRadius)[5 * k .. 5 * k + 5];
    } else if |init| > 0 {
      DrawTraceLayout(init, parentRadius, 0);
    }
  }

  /** A dot, whose opacity the loader's repaint updates in place. Its
      position, radius and color are fixed at construction. */
  class Dot {
    const radius: real
    const color: JsValue
    var eighths: int
    const x: real
    const y: real

    function View(): DotView
      reads this
    {
      DotView(x, y, radius, color, eighths)
    }

    constructor (x: real, y: real, radius: real, color: JsValue, eighths: int)
      ensures View() == DotView(x, y, radius, color, eighths)
    {
      this.radius := radius;
      this.color := color;
      this.eighths := eighths;
      this.x := x;
      this.y := y;
    }

    /** Subtract one eighth; below zero, snap back to full opacity. */
    method ChangeOpacity()
      modifies this
      ensures View() == Advanced(old(View()))
    {
      eighths := eighths - 1;
      if eighths < 0 {
        eighths := NumDots;
      }
    }

    /** Paint this dot on its loader's context. */
    method Draw(ctx: Context, parentRadius: real)
      modifies ctx
      ensures ctx.log == old(ctx.log) + DotCommands(View(), parentRadius)
    {
      ctx.BeginPath();
      ctx.SetGlobalAlpha(Alpha(eighths));
      ctx.SetFillStyle(color);
      ctx.Arc(x + parentRadius / 2.0, y + parentRadius / 2.0, radius);
      ctx.Fill();
    }
  }

  /** A loader: its context, its geometry and its eight dots, stored in key
      order (dot i at index i - 1). None of these is reassigned after
      construction; only the dots' opacities change. */
  class CanvasLoader {
    const ctx: Context
    const radius: real
    const x: real
    const y: real
    const color: JsValue
    const dotRadius: real
    const dots: array<Dot>
    /** The dot objects the array holds. */
    ghost const Dots: seq<Dot>
    ghost const Repr: set<object>
    /** How many repaints the loader has done. */
    ghost var ticks: nat

    /** The array holds eight distinct dots, and dot i is i eighths stepped
        `ticks` times. */
    ghost predicate Valid()
      reads Repr
    {
      Repr == {this, ctx, dots} + (set j | 0 <= j < |Dots| :: Dots[j]) &&
      |Dots| == NumDots && dots[..] == Dots &&
      (forall i, j | 0 <= i < j < NumDots :: Dots[i] != Dots[j]) &&
      (forall j | 0 <= j < NumDots :: Dots[j].eighths == Iterate(j + 1, ticks))
    }

    /** The dots' current values, in index order. */
    ghost function Views(): (vs: seq<DotView>)
      reads Dots
      ensures |vs| == |Dots|
      ensures forall j | 0 <= j < |Dots| :: vs[j] == Dots[j].View()
    {
      seq(|Dots|, j requires 0 <= j < |Dots| reads Dots => Dots[j].View())
    }

    /** Builds dot i for i = 1..8 at the given position (the trigonometry is
        not modelled) with opacity i/8. */
    constructor (ctx: Context, radius: real, color: JsValue, dotRadius: real,
                 positions: seq<(real, real)>)
      requires |positions| == NumDots
      ensures Valid() && fresh(Repr - {ctx})
      ensures this.ctx == ctx && this.radius == radius && this.color == color
      ensures this.dotRadius == dotRadius && x == radius / 2.0 && y == radius / 2.0
      ensures ticks == 0
      ensures Views() == InitialDots(positions, dotRadius, color)
    {
      this.ctx := ctx;
      this.radius := radius;
      x := radius / 2.0;
      y := radius / 2.0;
      this.color := color;
      this.dotRadius := dotRadius;
      var made: seq<Dot> := [];
      var i := 1;
      while i <= NumDots
        invariant 1 <= i <= NumDots + 1 && |made| == i - 1
        invariant forall j | 0 <= j < |made| :: fresh(made[j])
        invariant forall j | 0 <= j < |made| ::
          made[j].View() == DotView(positions[j].0, positions[j].1, dotRadius, color, j + 1)
        invariant forall a, b | 0 <= a < b < |made| :: made[a] != made[b]
      {
        var d := new Dot(positions[i - 1].0, positions[i - 1].1, dotRadius, color, i);
        made := made + [d];
        i := i + 1;
      }
      var a := new Dot[NumDots](j requires 0 <= j < NumDots => made[j]);
      dots := a;
      Dots := made;
      Repr := {this, ctx, a} + set j | 0 <= j < NumDots :: made[j];
      ticks := 0;
      new;
      assert dots[..] == Dots;
      assert Views() == InitialDots(positions, dotRadius, color);
    }

    /** Repaint: clear, fill the background, then for each dot in index
        order update its opacity and draw it. */
    method Draw(background: JsValue)
      requires Valid()
      modifies Repr
      ensures Valid() && ticks == old(ticks) + 1
      ensures ctx.log == old(ctx.log) + DrawTrace(radius, background, old(Views()))
      ensures forall k | 0 <= k < NumDots :: Dots[k].View() == Advanced(old(Dots[k].View()))
    {
      ghost var before := Views();
      ghost var phase := ticks;
      DrawBackground(background);
      assert Views() == before;
      FillInDots();
      assert ctx.log == old(ctx.log) + DrawTrace(radius, background, before);
      ticks := ticks + 1;
      forall k | 0 <= k < NumDots
        ensures Dots[k].eighths == Iterate(k + 1, ticks)
      {
        assert Iterate(k + 1, ticks) == Step(Iterate(k + 1, phase));
      }
    }

    /** The first half of the repaint: clear the square, then fill it with
        the background color at full opacity. */
    method DrawBackground(background: JsValue)
      modifies ctx
      ensures ctx.log == old(ctx.log) + BackgroundCommands(radius, background)
    {
      ctx.ClearRect(0.0, 0.0, radius, radius);
      ctx.SetGlobalAlpha(1.0);
      ctx.SetFillStyle(background);
      ctx.FillRect(0.0, 0.0, radius, radius);
    }

    /** The dot loop of the repaint: each dot, in index order, updates its
        opacity and then draws itself. */
    method FillInDots()
      requires dots[..] == Dots
      requires forall i, j | 0 <= i < j < |Dots| :: Dots[i] != Dots[j]
      modifies ctx, Dots
      ensures ctx.log == old(ctx.log) + DotsCommands(AdvanceAll(old(Views())), radius)
      ensures forall k | 0 <= k < |Dots| :: Dots[k].eighths == Step(old(Dots[k].eighths))
    {
      ghost var before := Views();
      ghost var after := AdvanceAll(before);
      ghost var log0 := ctx.log;
      var j := 0;
      while j < dots.Length
        invariant 0 <= j <= dots.Length
        invariant ctx.log == log0 + DotsCommands(after[..j], radius)
        invariant forall k | 0 <= k < |Dots| ::
          Dots[k].eighths == if k < j then Step(before[k].eighths) else before[k].eighths
      {
        dots[j].ChangeOpacity();
        assert Dots[j].View() == Advanced(before[j]) == after[j];
        dots[j].Draw(ctx, radius);
        DotsCommandsSnoc(after, j, radius);
        j := j + 1;
      }
      assert after[..j] == after;
    }
  }

  /** The eight dots of a loader never share an opacity. */
  lemma OpacitiesDistinct(l: CanvasLoader)
    requires l.Valid()
    ensures forall i, j | 0 <= i < j < NumDots :: l.dots[i].eighths != l.dots[j].eighths
  {
    forall i, j | 0 <= i < j < NumDots
      ensures l.dots[i].eighths != l.dots[j].eighths
    {
      PhasesStayDistinct(i + 1, j + 1, l.ticks);
    }
  }

  /** The radius and dot radius a supplied options object may set are
      numbers (the model does not coerce strings in arithmetic). */
  predicate NumericGeometry(options: JsValue)
  {
    Typeof(options) == "object" && !options.Null? ==>
      (Truthy(Get(options, "radius")) ==> Get(options, "radius").Num?) &&
      (Truthy(Get(options, "dotRadius")) ==> Get(options, "dotRadius").Num?)
  }

  /** The state of one canvasLoaderReplace call: the merged settings and the
      array of loaders, which gets at most the one loader of this call. */
  class Replacement {
    var opts: Config
    /** The array `loaders`: its entries by index, and its length. */
    var loaders: map<nat, CanvasLoader>
    var length: nat
    ghost var Repr: set<object>

    ghost predicate Valid()
      reads this, Repr
    {
      this in Repr &&
      ((loaders == map[] && length == 0) ||
       (loaders.Keys == {1} && length == 2 && loaders[1] in Repr &&
        loaders[1].Repr <= Repr && this !in loaders[1].Repr && loaders[1].Valid()))
    }

    /** Creates the loader when the context is truthy and stores it at index
        `loaders.length + 1`. */
    constructor (opts: Config, ctx: Context?, positions: seq<(real, real)>)
      requires opts.radius.Num? && opts.dotRadius.Num? && |positions| == NumDots
      ensures Valid() && fresh(Repr - (if ctx == null then {} else {ctx}))
      ensures this.opts == opts
      ensures ctx == null ==> loaders == map[]
      ensures ctx != null ==>
        loaders.Keys == {1} && loaders[1].ctx == ctx &&
        loaders[1].radius == opts.radius.n && loaders[1].color == opts.color &&
        loaders[1].dotRadius == opts.dotRadius.n && loaders[1].ticks == 0 &&
        loaders[1].Views() == InitialDots(positions, opts.dotRadius.n, opts.color)
    {
      this.opts := opts;
      loaders := map[];
      length := 0;
      Repr := {this};
      new;
      if ctx != null {
        var l := new CanvasLoader(ctx, opts.radius.n, opts.color, opts.dotRadius.n, positions);
        var key := length + 1;
        loaders := loaders[key := l];
        length := key + 1;
        Repr := Repr + l.Repr;
      }
    }

    /** One timer tick: repaint every loader in the array, in index order. */
    method Tick()
      requires Valid()
      modifies Repr
      ensures Valid() && Repr == old(Repr)
      ensures opts == old(opts) && loaders == old(loaders) && length == old(length)
      ensures loaders == map[] ==> unchanged(Repr)
      ensures 1 in loaders ==>
        loaders[1].ctx == old(loaders[1].ctx) && loaders[1].ticks == old(loaders[1].ticks) + 1 &&
        loaders[1].ctx.log == old(loaders[1].ctx.log) +
          DrawTrace(loaders[1].radius, opts.backgroundColor, old(loaders[1].Views()))
    {
      ghost var drawn := if 1 in loaders then loaders[1].Repr else {};
      var i := 0;
      while i < length
        modifies drawn
        invariant 0 <= i <= length
        invariant loaders == map[] ==> unchanged(Repr)
        invariant 1 in loaders && i <= 1 ==> unchanged(drawn)
        invariant 1 in loaders && i > 1 ==>
          loaders[1].Valid() && loaders[1].Repr == old(loaders[1].Repr) &&
          loaders[1].ctx == old(loaders[1].ctx) && loaders[1].radius == old(loaders[1].radius) &&
          loaders[1].ticks == old(loaders[1].ticks) + 1 &&
          loaders[1].ctx.log == old(loaders[1].ctx.log) +
            DrawTrace(loaders[1].radius, opts.backgroundColor, old(loaders[1].Views()))
      {
        if i in loaders {
          loaders[i].Draw(opts.backgroundColor);
        }
        i := i + 1;
      }
    }
  }

  /** canvasLoaderReplace: merge the options over the defaults, then register
      a loader if `ctx` (the result of getContext("2d")) is truthy. `thrown`
      is the TypeError a null options argument raises, after which nothing
      else happens. */
  method CanvasLoaderReplace(options: JsValue, ctx: Context?, positions: seq<(real, real)>)
    returns (thrown: bool, r: Replacement?)
    requires |positions| == NumDots && NumericGeometry(options)
    ensures thrown <==> options.Null?
    ensures thrown <==> r == null
    ensures r != null ==> fresh(r) && r.Valid() && Merged(Defaults, options) == Ok(r.opts)
    ensures r != null ==> fresh(r.Repr - (if ctx == null then {} else {ctx}))
    ensures r != null && ctx == null ==> r.loaders == map[]
    ensures r != null && ctx != null ==>
      r.loaders.Keys == {1} && r.loaders[1].ctx == ctx &&
      r.loaders[1].radius == r.opts.radius.n && r.loaders[1].dotRadius == r.opts.dotRadius.n &&
      r.loaders[1].color == r.opts.color && r.loaders[1].ticks == 0 &&
      r.loaders[1].Views() == InitialDots(positions, r.opts.dotRadius.n, r.opts.color)
  {
    var defaults := new Settings();
    thrown := defaults.ApplyOptions(options);
    if thrown {
      r := null;
      return;
    }
    var opts := defaults.Snapshot();
    assert Field(opts, "radius").Num? && Field(opts, "dotRadius").Num?;
    r := new Replacement(opts, ctx, positions);
  }
}
