/**
 * The drawable primitives: stroke and fill styles, and the drawers a graph
 * keeps (line, circle, rectangle, sampled function, text, custom drawer).
 * Each drawer turns its graph-space description into canvas calls through
 * one viewport snapshot.
 */
module Primitives {
  import opened Wrappers
  import opened Transform
  import C = Canvas
  import A = Adapter

  /** 2π as the host's floating-point Math.PI doubles it. */
  const TwoPi: real := 6.283185307179586

  /**
   * A stroke colour and line width. The width is handed to the canvas as given;
   * its default is the string "2".
   */
  datatype StrokeStyle = StrokeStyle(color: string, width: C.Value)

  /** A fill colour. */
  datatype FillStyle = FillStyle(color: string)

  const DefaultStroke: StrokeStyle := StrokeStyle("rgba(0, 0, 0, 0)", C.Str("2"))
  const DefaultFill: FillStyle := FillStyle("rgba(0, 0, 0, 0)")

  /** StrokeStyle.set: the two property writes that activate a stroke style. */
  function StrokeSet(s: StrokeStyle): seq<C.Cmd> {
    [C.SetProp("strokeStyle", C.Str(s.color)), C.SetProp("lineWidth", s.width)]
  }

  /** FillStyle.set: the property write that activates a fill style. */
  function FillSet(f: FillStyle): seq<C.Cmd> {
    [C.SetProp("fillStyle", C.Str(f.color))]
  }

  /**
   * A drawer: Base is the do-nothing GraphDrawer, Wrapper a custom drawer
   * given by the requests it makes on the wrapped context.
   */
  datatype Drawer =
    | Base
    | Line(sx: real, sy: real, ex: real, ey: real, stroke: StrokeStyle)
    | Circle(cx: real, cy: real, r: real, stroke: StrokeStyle, fill: FillStyle)
    | Rect(x: real, y: real, w: real, h: real, stroke: StrokeStyle, fill: FillStyle)
    | Func(f: real -> real, stroke: StrokeStyle)
    | Text(text: string, x: real, y: real, height: real, stroke: StrokeStyle, fill: FillStyle)
    | Wrapper(script: seq<A.Request>)

  /** The graph x sampled at canvas column sx: ctg of (sx, 0). */
  function SampleX(v: View, sx: nat): real
    requires NonZero(v)
  {
    Ctg(v, sx as real, 0.0).x
  }

  /** The path step for canvas column sx: a move for the first column, a line after it. */
  function SampleCmd(v: View, f: real -> real, sx: nat): C.Cmd
    requires NonZero(v)
  {
    var x := SampleX(v, sx);
    var p := Gtc(v, x, f(x));
    if sx == 0 then C.MoveTo(p.x as real, p.y as real) else C.LineTo(p.x as real, p.y as real)
  }

  /** How many columns the sampling loop visits: every whole sx with 0 <= sx <= width. */
  function SampleCount(v: View): nat {
    if v.width < 0.0 then 0 else v.width.Floor + 1
  }

  /** Column sx is sampled exactly when sx <= width. */
  lemma SampleCountCovers(v: View, sx: nat)
    ensures sx < SampleCount(v) <==> sx as real <= v.width
  {
  }

  /** The path steps for the first n columns. */
  function Samples(v: View, f: real -> real, n: nat): (r: seq<C.Cmd>)
    requires NonZero(v)
    ensures |r| == n
  {
    if n == 0 then [] else Samples(v, f, n - 1) + [SampleCmd(v, f, n - 1)]
  }

  /** The path step at position sx of the samples is column sx's. */
  lemma {:induction false} SamplesAt(v: View, f: real -> real, n: nat, sx: nat)
    requires NonZero(v) && sx < n
    ensures Samples(v, f, n)[sx] == SampleCmd(v, f, sx)
  {
    if sx < n - 1 {
      SamplesAt(v, f, n - 1, sx);
    }
  }

  /** GraphLine.draw's calls. */
  function LineCmds(v: View, sx: real, sy: real, ex: real, ey: real, stroke: StrokeStyle): seq<C.Cmd>
    requires v.radX != 0.0 && v.aspect != 0.0
  {
    var s, e := Gtc(v, sx, sy), Gtc(v, ex, ey);
    StrokeSet(stroke) +
    [C.BeginPath, C.MoveTo(s.x as real, s.y as real), C.LineTo(e.x as real, e.y as real), C.Stroke]
  }

  /** GraphCircle.draw's calls: a full ellipse with both radii sgtc(r). */
  function CircleCmds(v: View, cx: real, cy: real, r: real, stroke: StrokeStyle, fill: FillStyle): seq<C.Cmd>
    requires v.radX != 0.0 && v.aspect != 0.0
  {
    var c := Gtc(v, cx, cy);
    var cr := Sgtc(v, r);
    StrokeSet(stroke) + FillSet(fill) +
    [C.BeginPath, C.Ellipse(c.x as real, c.y as real, cr, cr, 0.0, 0.0, TwoPi, false), C.Stroke, C.Fill]
  }

  /** GraphRect.draw's calls: fill then outline, the height scaled but not negated. */
  function RectCmds(v: View, x: real, y: real, w: real, h: real, stroke: StrokeStyle, fill: FillStyle): seq<C.Cmd>
    requires v.radX != 0.0 && v.aspect != 0.0
  {
    var c := Gtc(v, x, y);
    StrokeSet(stroke) + FillSet(fill) +
    [C.FillRect(c.x as real, c.y as real, Sgtc(v, w), Sgtc(v, h)),
     C.StrokeRect(c.x as real, c.y as real, Sgtc(v, w), Sgtc(v, h))]
  }

  /** GraphFunc.draw's calls: one path through a vertex per sampled column. */
  function FuncCmds(v: View, f: real -> real, stroke: StrokeStyle): seq<C.Cmd>
    requires NonZero(v)
  {
    StrokeSet(stroke) + [C.BeginPath] + Samples(v, f, SampleCount(v)) + [C.Stroke]
  }

  /** GraphText.draw's calls: centred text whose font is floor(2 * sgtc(height)) pixels. */
  function TextCmds(v: View, text: string, x: real, y: real, height: real, stroke: StrokeStyle, fill: FillStyle): seq<C.Cmd>
    requires v.radX != 0.0 && v.aspect != 0.0
  {
    var p := Gtc(v, x, y);
    [C.SetProp("textAlign", C.Str("center")), C.SetProp("textBaseline", C.Str("middle")),
     C.SetProp("font", C.FontPx((2.0 * Sgtc(v, height)).Floor))] +
    StrokeSet(stroke) + FillSet(fill) +
    [C.FillText(text, p.x as real, p.y as real, None)]
  }

  /** What each drawer issues on the canvas for one frame. */
  function Render(d: Drawer, v: View): seq<C.Cmd>
    requires NonZero(v)
  {
    match d
    case Base => []
    case Line(sx, sy, ex, ey, stroke) => LineCmds(v, sx, sy, ex, ey, stroke)
    case Circle(cx, cy, r, stroke, fill) => CircleCmds(v, cx, cy, r, stroke, fill)
    case Rect(x, y, w, h, stroke, fill) => RectCmds(v, x, y, w, h, stroke, fill)
    case Func(f, stroke) => FuncCmds(v, f, stroke)
    case Text(text, x, y, height, stroke, fill) => TextCmds(v, text, x, y, height, stroke, fill)
    case Wrapper(script) => A.ScriptCmds(v, script)
  }

  /** What a list of drawers issues, in list order. */
  function RenderAll(ds: seq<Drawer>, v: View): seq<C.Cmd>
    requires NonZero(v)
  {
    if ds == [] then [] else RenderAll(ds[..|ds| - 1], v) + Render(ds[|ds| - 1], v)
  }

  /** StrokeStyle.set on the canvas. */
  method SetStroke(ctx: C.Context, s: StrokeStyle)
    modifies ctx
    ensures ctx.log == old(ctx.log) + StrokeSet(s)
  {
    ctx.Issue(C.SetProp("strokeStyle", C.Str(s.color)));
    ctx.Issue(C.SetProp("lineWidth", s.width));
  }

  /** FillStyle.set on the canvas. */
  method SetFill(ctx: C.Context, f: FillStyle)
    modifies ctx
    ensures ctx.log == old(ctx.log) + FillSet(f)
  {
    ctx.Issue(C.SetProp("fillStyle", C.Str(f.color)));
  }

  /** GraphFunc.draw: one path vertex per canvas column from 0 to width. */
  method DrawFunc(ctx: C.Context, f: real -> real, stroke: StrokeStyle, v: View)
    requires NonZero(v)
    modifies ctx
    ensures ctx.log == old(ctx.log) + FuncCmds(v, f, stroke)
  {
    SetStroke(ctx, stroke);
    ctx.Issue(C.BeginPath);
    ghost var start := ctx.log;
    var sx: nat := 0;
    SampleCountCovers(v, sx);
    while sx as real <= v.width
      invariant sx <= SampleCount(v)
      invariant sx < SampleCount(v) <==> sx as real <= v.width
      invariant ctx.log == start + Samples(v, f, sx)
      decreases SampleCount(v) - sx
    {
      C.Appended(start, Samples(v, f, sx), [SampleCmd(v, f, sx)]);
      DrawSample(ctx, f, v, sx);
      sx := sx + 1;
      SampleCountCovers(v, sx);
    }
    assert sx == SampleCount(v);
    ctx.Issue(C.Stroke);
  }

  /** One iteration of GraphFunc.draw's loop: the path step through (x, f(x)) for column sx. */
  method DrawSample(ctx: C.Context, f: real -> real, v: View, sx: nat)
    requires NonZero(v)
    modifies ctx
    ensures ctx.log == old(ctx.log) + [SampleCmd(v, f, sx)]
  {
    var x := Ctg(v, sx as real, 0.0).x;
    var fx := f(x);
    var p := Gtc(v, x, fx);
    if sx == 0 {
      ctx.Issue(C.MoveTo(p.x as real, p.y as real));
    } else {
      ctx.Issue(C.LineTo(p.x as real, p.y as real));
    }
  }

  /** GraphLine.draw. */
  method DrawLine(ctx: C.Context, v: View, sx: real, sy: real, ex: real, ey: real, stroke: StrokeStyle)
    requires v.radX != 0.0 && v.aspect != 0.0
    modifies ctx
    ensures ctx.log == old(ctx.log) + LineCmds(v, sx, sy, ex, ey, stroke)
  {
    var s, e := Gtc(v, sx, sy), Gtc(v, ex, ey);
    SetStroke(ctx, stroke);
    ctx.Issue(C.BeginPath);
    ctx.Issue(C.MoveTo(s.x as real, s.y as real));
    ctx.Issue(C.LineTo(e.x as real, e.y as real));
    ctx.Issue(C.Stroke);
  }

  /** GraphCircle.draw. */
  method DrawCircle(ctx: C.Context, v: View, cx: real, cy: real, r: real, stroke: StrokeStyle, fill: FillStyle)
    requires v.radX != 0.0 && v.aspect != 0.0
    modifies ctx
    ensures ctx.log == old(ctx.log) + CircleCmds(v, cx, cy, r, stroke, fill)
  {
    var c := Gtc(v, cx, cy);
    var cr := Sgtc(v, r);
    SetStroke(ctx, stroke);
    SetFill(ctx, fill);
    ctx.Issue(C.BeginPath);
    ctx.Issue(C.Ellipse(c.x as real, c.y as real, cr, cr, 0.0, 0.0, TwoPi, false));
    ctx.Issue(C.Stroke);
    ctx.Issue(C.Fill);
  }

  /** GraphRect.draw. */
  method DrawRect(ctx: C.Context, v: View, x: real, y: real, w: real, h: real, stroke: StrokeStyle, fill: FillStyle)
    requires v.radX != 0.0 && v.aspect != 0.0
    modifies ctx
    ensures ctx.log == old(ctx.log) + RectCmds(v, x, y, w, h, stroke, fill)
  {
    SetStroke(ctx, stroke);
    SetFill(ctx, fill);
    var c := Gtc(v, x, y);
    var cw, ch := Sgtc(v, w), Sgtc(v, h);
    ctx.Issue(C.FillRect(c.x as real, c.y as real, cw, ch));
    ctx.Issue(C.StrokeRect(c.x as real, c.y as real, cw, ch));
  }

  /** GraphText.draw. */
  method DrawText(ctx: C.Context, v: View, text: string, x: real, y: real, height: real,
                  stroke: StrokeStyle, fill: FillStyle)
    requires v.radX != 0.0 && v.aspect != 0.0
    modifies ctx
    ensures ctx.log == old(ctx.log) + TextCmds(v, text, x, y, height, stroke, fill)
  {
    ctx.Issue(C.SetProp("textAlign", C.Str("center")));
    ctx.Issue(C.SetProp("textBaseline", C.Str("middle")));
    ctx.Issue(C.SetProp("font", C.FontPx((2.0 * Sgtc(v, height)).Floor)));
    SetStroke(ctx, stroke);
    SetFill(ctx, fill);
    var p := Gtc(v, x, y);
    ctx.Issue(C.FillText(text, p.x as real, p.y as real, None));
  }

  /** GraphDrawer.draw and its overrides, dispatched on the drawer. */
  method Draw(ctx: C.Context, d: Drawer, v: View)
    requires NonZero(v)
    modifies ctx
    ensures ctx.log == old(ctx.log) + Render(d, v)
  {
    match d {
      case Base =>
      case Line(sx, sy, ex, ey, stroke) => DrawLine(ctx, v, sx, sy, ex, ey, stroke);
      case Circle(cx, cy, r, stroke, fill) => DrawCircle(ctx, v, cx, cy, r, stroke, fill);
      case Rect(x, y, w, h, stroke, fill) => DrawRect(ctx, v, x, y, w, h, stroke, fill);
      case Func(f, stroke) => DrawFunc(ctx, f, stroke, v);
      case Text(text, x, y, height, stroke, fill) => DrawText(ctx, v, text, x, y, height, stroke, fill);
      case Wrapper(script) => A.DrawWrapped(ctx, v, script);
    }
  }

  /** list.forEach(d => d.draw(graphInfo)). */
  method DrawAll(ctx: C.Context, ds: seq<Drawer>, v: View)
    requires NonZero(v)
    modifies ctx
    ensures ctx.log == old(ctx.log) + RenderAll(ds, v)
  {
    var i := 0;
    while i < |ds|
      invariant 0 <= i <= |ds|
      invariant ctx.log == old(ctx.log) + RenderAll(ds[..i], v)
    {
      assert ds[..i + 1][..i] == ds[..i];
      C.Appended(old(ctx.log), RenderAll(ds[..i], v), Render(ds[i], v));
      Draw(ctx, ds[i], v);
      i := i + 1;
    }
    assert ds[..i] == ds;
  }

  /** Appending a drawer appends its output to the list's output. */
  lemma RenderAllSnoc(ds: seq<Drawer>, d: Drawer, v: View)
    requires NonZero(v)
    ensures RenderAll(ds + [d], v) == RenderAll(ds, v) + Render(d, v)
  {
    assert (ds + [d])[..|ds|] == ds;
  }

  /** The vertex for canvas column sx sits exactly in column sx. */
  lemma SampleColumn(v: View, f: real -> real, sx: nat)
    requires NonZero(v)
    ensures SampleCmd(v, f, sx).x == sx as real
  {
    PointInverse(v, 0.0, 0.0, sx as real, 0.0);
  }

  /** Each vertex is within a pixel of the curve point (x, f(x)) it plots. */
  lemma SampleOnCurve(v: View, f: real -> real, sx: nat)
    requires Positive(v)
    ensures var x := SampleX(v, sx);
            var c := SampleCmd(v, f, sx);
            A.Near(v, x, f(x), c.x, c.y)
  {
    var x := SampleX(v, sx);
    A.PixelNear(v, x, f(x));
  }

  /**
   * The samples sweep the visible x range left to right: the first at the
   * left edge, each further one to the right of the last, and the final one
   * within a pixel of the right edge. There are width + 1 of them for a
   * whole-pixel width.
   */
  lemma SamplesSpanView(v: View)
    requires Positive(v)
    ensures SampleCount(v) == v.width.Floor + 1
    ensures SampleX(v, 0) == v.cx - v.radX
    ensures forall i: nat, j: nat :: i < j ==> SampleX(v, i) < SampleX(v, j)
    ensures var last := SampleX(v, SampleCount(v) - 1);
            v.cx + v.radX - 2.0 * v.radX / v.width < last <= v.cx + v.radX
  {
    Scales(v);
    var s := XScale(v);
    forall i: nat, j: nat | i < j
      ensures SampleX(v, i) < SampleX(v, j)
    {
      CtgXForm(v, i as real, 0.0);
      CtgXForm(v, j as real, 0.0);
      assert i as real / s < j as real / s;
    }
    var n := v.width.Floor;
    assert SampleX(v, n) == n as real / s + v.cx - v.radX by { CtgXForm(v, n as real, 0.0); }
    FloorDiv(v.width, s);
    Reciprocal(v.width, v.radX);
    assert v.width / s == 2.0 * v.radX by {
      ScaleExtent(v);
      DivExact(v.width, 2.0 * v.radX, s);
    }
  }

  /**
   * The font size is the largest whole pixel count at most twice the text's
   * height: in graph units it is at most 2 * height and one more pixel would exceed it.
   */
  lemma TextFontSize(v: View, height: real)
    requires Positive(v)
    ensures var px := (2.0 * Sgtc(v, height)).Floor;
            Sctg(v, px as real) <= 2.0 * height < Sctg(v, px as real + 1.0)
  {
    var t := 2.0 * Sgtc(v, height);
    var px := t.Floor as real;
    var s := XScale(v);
    Scales(v);
    assert t / s == 2.0 * height by {
      assert t == (2.0 * height) * s;
      Cancel(s, 2.0 * height);
    }
    assert Sctg(v, px) == px / s && Sctg(v, px + 1.0) == (px + 1.0) / s;
    DivMonotone(px, t, s);
    DivMonotone(t, px + 1.0, s);
  }

  lemma DivMonotone(a: real, b: real, s: real)
    requires s > 0.0
    ensures a <= b ==> a / s <= b / s
    ensures a < b ==> a / s < b / s
  {
    assert b / s - a / s == (b - a) / s;
  }

  /** A write that changes a style: to strokeStyle, lineWidth or fillStyle. */
  predicate IsStyleWrite(c: C.Cmd) {
    c.SetProp? && (c.name == "strokeStyle" || c.name == "lineWidth" || c.name == "fillStyle")
  }

  /** Every stroke in log paints with s: the last strokeStyle and lineWidth written before it are s's. */
  predicate StrokesWith(log: seq<C.Cmd>, s: StrokeStyle) {
    forall i :: 0 <= i < |log| && C.UsesStroke(log[i]) ==>
      C.LastWrite(log[..i], "strokeStyle") == Some(C.Str(s.color)) &&
      C.LastWrite(log[..i], "lineWidth") == Some(s.width)
  }

  /** Every fill in log paints with f: the last fillStyle written before it is f's colour. */
  predicate FillsWith(log: seq<C.Cmd>, f: FillStyle) {
    forall i :: 0 <= i < |log| && C.UsesFill(log[i]) ==> C.LastWrite(log[..i], "fillStyle") == Some(C.Str(f.color))
  }

  /** log paints no fill. */
  predicate NoFill(log: seq<C.Cmd>) {
    forall i :: 0 <= i < |log| ==> !C.UsesFill(log[i])
  }

  /** The property writes a drawer makes first: pre, then its stroke style, then its fill style if it has one. */
  function StyleHead(pre: seq<C.Cmd>, s: StrokeStyle, fill: Option<FillStyle>): seq<C.Cmd> {
    pre + StrokeSet(s) + (if fill.Some? then FillSet(fill.value) else [])
  }

  /** After the head, the styles in force are the drawer's, and nothing in the head paints. */
  lemma HeadStyles(pre: seq<C.Cmd>, s: StrokeStyle, fill: Option<FillStyle>)
    requires forall i :: 0 <= i < |pre| ==> pre[i].SetProp?
    ensures var head := StyleHead(pre, s, fill);
            (forall i :: 0 <= i < |head| ==> head[i].SetProp?) &&
            C.LastWrite(head, "strokeStyle") == Some(C.Str(s.color)) &&
            C.LastWrite(head, "lineWidth") == Some(s.width) &&
            (fill.Some? ==> C.LastWrite(head, "fillStyle") == Some(C.Str(fill.value.color)))
  {
    var fs := if fill.Some? then FillSet(fill.value) else [];
    var head := StyleHead(pre, s, fill);
    var first := pre + [C.SetProp("strokeStyle", C.Str(s.color))];
    var both := first + [C.SetProp("lineWidth", s.width)];
    assert both == pre + StrokeSet(s);
    assert head == both + fs;
    forall i | 0 <= i < |head|
      ensures head[i].SetProp?
    {
      if i < |pre| {
        assert head[i] == pre[i];
      }
    }
    C.LastWriteKept(first, [C.SetProp("lineWidth", s.width)] + fs, "strokeStyle");
    assert head == first + ([C.SetProp("lineWidth", s.width)] + fs);
    C.LastWriteKept(both, fs, "lineWidth");
  }

  /**
   * A drawer whose calls are its head and then a body that writes no style
   * strokes (and fills) with its own styles.
   */
  lemma StyledLog(pre: seq<C.Cmd>, s: StrokeStyle, fill: Option<FillStyle>, body: seq<C.Cmd>)
    requires forall i :: 0 <= i < |pre| ==> pre[i].SetProp?
    requires forall i :: 0 <= i < |body| ==> !IsStyleWrite(body[i])
    ensures StrokesWith(StyleHead(pre, s, fill) + body, s)
    ensures fill.Some? ==> FillsWith(StyleHead(pre, s, fill) + body, fill.value)
    ensures fill.None? && NoFill(body) ==> NoFill(StyleHead(pre, s, fill) + body)
  {
    var head := StyleHead(pre, s, fill);
    var log := head + body;
    HeadStyles(pre, s, fill);
    forall i | 0 <= i < |log| && (C.UsesStroke(log[i]) || C.UsesFill(log[i]))
      ensures |head| <= i
      ensures C.LastWrite(log[..i], "strokeStyle") == C.LastWrite(head, "strokeStyle")
      ensures C.LastWrite(log[..i], "lineWidth") == C.LastWrite(head, "lineWidth")
      ensures C.LastWrite(log[..i], "fillStyle") == C.LastWrite(head, "fillStyle")
    {
      var part := body[..i - |head|];
      assert log[..i] == head + part;
      C.LastWriteKept(head, part, "strokeStyle");
      C.LastWriteKept(head, part, "lineWidth");
      C.LastWriteKept(head, part, "fillStyle");
    }
    if fill.None? && NoFill(body) {
      forall i | 0 <= i < |log|
        ensures !C.UsesFill(log[i])
      {
        if i >= |head| {
          assert log[i] == body[i - |head|];
        }
      }
    }
  }

  /** A function drawer strokes its samples with its stroke style and fills nothing. */
  lemma FuncStyles(f: real -> real, stroke: StrokeStyle, v: View)
    requires NonZero(v)
    ensures StrokesWith(Render(Func(f, stroke), v), stroke)
    ensures NoFill(Render(Func(f, stroke), v))
  {
    var samples := Samples(v, f, SampleCount(v));
    var body := [C.BeginPath] + samples + [C.Stroke];
    forall i | 0 <= i < |body|
      ensures !IsStyleWrite(body[i]) && !C.UsesFill(body[i])
    {
      if 0 < i < |body| - 1 {
        assert body[i] == samples[i - 1];
        SamplesAt(v, f, SampleCount(v), i - 1);
      }
    }
    assert Render(Func(f, stroke), v) == StyleHead([], stroke, None) + body;
    StyledLog([], stroke, None, body);
  }

  /**
   * StrokeStyle.set and FillStyle.set activate a drawer's styles: every
   * stroke a line, circle, rectangle, function or text drawer makes paints
   * with its stroke style, every fill with its fill style, and the line and
   * function drawers fill nothing.
   */
  lemma StylesInForce(d: Drawer, v: View)
    requires NonZero(v)
    ensures d.Line? || d.Circle? || d.Rect? || d.Func? || d.Text? ==> StrokesWith(Render(d, v), d.stroke)
    ensures d.Circle? || d.Rect? || d.Text? ==> FillsWith(Render(d, v), d.fill)
    ensures d.Line? || d.Func? ==> NoFill(Render(d, v))
  {
    match d
    case Line(sx, sy, ex, ey, stroke) =>
      var s, e := Gtc(v, sx, sy), Gtc(v, ex, ey);
      var body := [C.BeginPath, C.MoveTo(s.x as real, s.y as real), C.LineTo(e.x as real, e.y as real), C.Stroke];
      assert Render(d, v) == StyleHead([], stroke, None) + body;
      StyledLog([], stroke, None, body);
    case Circle(cx, cy, r, stroke, fill) =>
      var c := Gtc(v, cx, cy);
      var cr := Sgtc(v, r);
      var body := [C.BeginPath, C.Ellipse(c.x as real, c.y as real, cr, cr, 0.0, 0.0, TwoPi, false), C.Stroke, C.Fill];
      assert Render(d, v) == StyleHead([], stroke, Some(fill)) + body;
      StyledLog([], stroke, Some(fill), body);
    case Rect(x, y, w, h, stroke, fill) =>
      var c := Gtc(v, x, y);
      var body := [C.FillRect(c.x as real, c.y as real, Sgtc(v, w), Sgtc(v, h)),
                   C.StrokeRect(c.x as real, c.y as real, Sgtc(v, w), Sgtc(v, h))];
      assert Render(d, v) == StyleHead([], stroke, Some(fill)) + body;
      StyledLog([], stroke, Some(fill), body);
    case Func(f, stroke) =>
      FuncStyles(f, stroke, v);
    case Text(text, x, y, height, stroke, fill) =>
      var p := Gtc(v, x, y);
      var pre := [C.SetProp("textAlign", C.Str("center")), C.SetProp("textBaseline", C.Str("middle")),
                  C.SetProp("font", C.FontPx((2.0 * Sgtc(v, height)).Floor))];
      var body := [C.FillText(text, p.x as real, p.y as real, None)];
      assert Render(d, v) == StyleHead(pre, stroke, Some(fill)) + body;
      StyledLog(pre, stroke, Some(fill), body);
    case _ =>
  }

  /** Line, circle and text geometry is the adapter's remapping of the same graph-space calls. */
  lemma RenderAgreesWithAdapter(d: Drawer, v: View)
    requires NonZero(v)
    ensures d.Line? ==>
              Render(d, v) == StrokeSet(d.stroke) +
                [C.BeginPath, A.RemapCall(v, A.MoveTo(d.sx, d.sy)), A.RemapCall(v, A.LineTo(d.ex, d.ey)), C.Stroke]
    ensures d.Circle? ==> Render(d, v)[4] == A.RemapCall(v, A.Ellipse(d.cx, d.cy, d.r, d.r, 0.0, 0.0, TwoPi, false))
    ensures d.Text? ==> Render(d, v)[6] == A.RemapCall(v, A.FillText(d.text, d.x, d.y, None))
  {
  }

  /**
   * A rectangle drawer's fill is the adapter's fillRect with the height
   * negated: the two disagree on which way a positive height points.
   */
  lemma RectIsFlippedAdapterRect(v: View, x: real, y: real, w: real, h: real, stroke: StrokeStyle, fill: FillStyle)
    requires NonZero(v)
    ensures Render(Rect(x, y, w, h, stroke, fill), v)[3] == A.RemapCall(v, A.FillRect(x, y, w, -h))
  {
    assert -Sgtc(v, -h) == Sgtc(v, h);
  }

  /**
   * The rectangle a Rect drawer paints has its first corner within a pixel of
   * (x, y) and its opposite corner w graph units right and h graph units DOWN
   * of it: (x, y) is the top-left corner of a rectangle with positive size.
   */
  lemma RectHangsFromCorner(v: View, x: real, y: real, w: real, h: real, stroke: StrokeStyle, fill: FillStyle)
    requires Positive(v) && Proportional(v)
    ensures var c := Render(Rect(x, y, w, h, stroke, fill), v)[3];
            c.FillRect? && A.Near(v, x, y, c.x, c.y) &&
            Ctg(v, c.x + c.w, c.y + c.h) == Point(Ctg(v, c.x, c.y).x + w, Ctg(v, c.x, c.y).y - h)
  {
    var c := Render(Rect(x, y, w, h, stroke, fill), v)[3];
    A.PixelNear(v, x, y);
    CtgShift(v, c.x, c.y, w, h);
  }

  /** The drawn shapes read back to their graph-space descriptions, within a pixel for positions. */
  lemma RenderRecovers(d: Drawer, v: View)
    requires Positive(v)
    ensures d.Line? ==> A.Recovers(v, A.MoveTo(d.sx, d.sy), Render(d, v)[3]) &&
                        A.Recovers(v, A.LineTo(d.ex, d.ey), Render(d, v)[4])
    ensures d.Circle? ==> A.Recovers(v, A.Ellipse(d.cx, d.cy, d.r, d.r, 0.0, 0.0, TwoPi, false), Render(d, v)[4])
    ensures d.Text? ==> A.Recovers(v, A.FillText(d.text, d.x, d.y, None), Render(d, v)[6])
  {
    RenderAgreesWithAdapter(d, v);
    match d
    case Line(sx, sy, ex, ey, _) =>
      A.RemapRecovers(v, A.MoveTo(sx, sy));
      A.RemapRecovers(v, A.LineTo(ex, ey));
    case Circle(cx, cy, r, _, _) =>
      A.RemapRecovers(v, A.Ellipse(cx, cy, r, r, 0.0, 0.0, TwoPi, false));
    case Text(text, x, y, _, _, _) =>
      A.RemapRecovers(v, A.FillText(text, x, y, None));
    case _ =>
  }
}
