/**
 * The Graph object: its options, its viewport fields, the drawer lists it
 * keeps, and the event handlers and methods that change them and redraw.
 */
module CanvasGraph {
  import opened Wrappers
  import opened Transform
  import opened Interaction
  import G = Grid
  import C = Canvas
  import P = Primitives

  /** The options a graph is created with; None is an option left out. */
  datatype GraphOptions = GraphOptions(
    fullsize: Option<bool>,
    autosize: Option<bool>,
    width: Option<real>,
    height: Option<real>,
    defaultZoom: Option<real>,
    defaultCenter: Option<(real, real)>)

  /** The options after the defaults are filled in. */
  datatype Settings = Settings(
    fullsize: bool,
    autosize: bool,
    width: Option<real>,
    height: Option<real>,
    defaultZoom: real,
    defaultCenter: (real, real))

  const NoOptions: GraphOptions := GraphOptions(None, None, None, None, None, None)

  /** The defaults: not fullsize, autosize, no fixed size, zoom 5 around the origin. */
  const Defaults: Settings := Settings(false, true, None, None, 5.0, (0.0, 0.0))

  /** Object.assign({}, defaults, options): every option given replaces its default. */
  function Merge(o: GraphOptions): Settings {
    Settings(
      o.fullsize.GetOr(Defaults.fullsize),
      o.autosize.GetOr(Defaults.autosize),
      if o.width.Some? then o.width else Defaults.width,
      if o.height.Some? then o.height else Defaults.height,
      o.defaultZoom.GetOr(Defaults.defaultZoom),
      o.defaultCenter.GetOr(Defaults.defaultCenter))
  }

  /** A graph sizes itself to its container only when asked to and not fullsize. */
  function EffectiveAutosize(s: Settings): (a: bool)
    ensures a ==> !s.fullsize
    ensures a <==> s.autosize && !s.fullsize
  {
    s.autosize && !s.fullsize
  }

  /** Where resize takes the canvas size from. */
  datatype SizeSource = WindowSize | ContainerSize | FixedSize

  /** resize's branch: the window when fullsize, else the container when autosize, else the fixed size. */
  function SizeSourceOf(fullsize: bool, autosize: bool): SizeSource {
    if fullsize then WindowSize else if autosize then ContainerSize else FixedSize
  }

  /** initEventHandlers' branch: which resize event, if any, triggers resize. */
  function ListenerOf(fullsize: bool, autosize: bool): Option<SizeSource> {
    if autosize then Some(ContainerSize) else if fullsize then Some(WindowSize) else None
  }

  /** The size resize gives the canvas, from the window's inner size, the container's box or the current size. */
  function SizeFrom(src: SizeSource, windowSize: (real, real), boxSize: (real, real), current: (real, real)): (real, real) {
    match src
    case WindowSize => windowSize
    case ContainerSize => boxSize
    case FixedSize => current
  }

  /** The background that clears every frame: opaque white over the whole canvas. */
  function Background(v: View): seq<C.Cmd> {
    [C.SetProp("fillStyle", C.Str("rgba(255, 255, 255)")), C.FillRect(0.0, 0.0, v.width, v.height)]
  }

  /**
   * Everything drawGraph issues: the background, the grid when it is on,
   * then functions, rectangles, lines, circles and custom drawers, each list
   * in its own order.
   */
  function Frame(v: View, grid: bool, funcs: seq<P.Drawer>, rects: seq<P.Drawer>, lines: seq<P.Drawer>,
                 circles: seq<P.Drawer>, others: seq<P.Drawer>): seq<C.Cmd>
    requires NonZero(v)
  {
    Background(v) + (if grid then G.GridCmds(v) else []) +
    P.RenderAll(funcs, v) + P.RenderAll(rects, v) + P.RenderAll(lines, v) +
    P.RenderAll(circles, v) + P.RenderAll(others, v)
  }

  class Graph {
    /** The graph point at the centre of the canvas, [x, y]; handlers update it in place. */
    const center: array<real>
    const ctx: C.Context
    var radX: real
    var aspect: real
    var width: real
    var height: real
    const fullsize: bool
    const autosize: bool
    var dragging: bool
    var drawGridFlag: bool
    var lines: seq<P.Drawer>
    var circles: seq<P.Drawer>
    var rects: seq<P.Drawer>
    var funcs: seq<P.Drawer>
    var others: seq<P.Drawer>

    /** The snapshot every conversion reads: centre, radius, aspect and canvas size. */
    function View(): View
      reads this, center
      requires center.Length == 2
    {
      Transform.View(center[0], center[1], radX, aspect, width, height)
    }

    /** Divisors are non-zero and the aspect ratio is the canvas's width over height. */
    predicate Valid()
      reads this, center
    {
      center.Length == 2 && NonZero(View()) && Proportional(View()) && !(fullsize && autosize)
    }

    /** The frame drawGraph draws for the current state. */
    function CurrentFrame(): seq<C.Cmd>
      reads this, center
      requires Valid()
    {
      Frame(View(), drawGridFlag, funcs, rects, lines, circles, others)
    }

    /** The drawGrid getter. */
    function DrawGrid(): bool
      reads this
    {
      drawGridFlag
    }

    /**
     * Merges the options with the defaults, sizes the canvas once and draws
     * the first frame. windowSize is the window's inner size and boxSize the
     * container's bounding box, read if the settings call for them.
     */
    constructor (options: GraphOptions, windowSize: (real, real), boxSize: (real, real))
      requires Merge(options).defaultZoom != 0.0
      requires var s := Merge(options);
               var src := SizeSourceOf(s.fullsize, EffectiveAutosize(s));
               (src == WindowSize ==> windowSize.0 != 0.0 && windowSize.1 != 0.0) &&
               (src == ContainerSize ==> boxSize.0 != 0.0 && boxSize.1 != 0.0) &&
               (src == FixedSize ==> s.width.Some? && s.height.Some? &&
                                     s.width.value != 0.0 && s.height.value != 0.0)
      ensures Valid() && fresh(center) && fresh(ctx)
      ensures var s := Merge(options);
              fullsize == s.fullsize && autosize == EffectiveAutosize(s) &&
              center[..] == [s.defaultCenter.0, s.defaultCenter.1] && radX == s.defaultZoom &&
              (width, height) == SizeFrom(SizeSourceOf(fullsize, autosize), windowSize, boxSize,
                                          (s.width.GetOr(0.0), s.height.GetOr(0.0))) &&
              aspect == width / height
      ensures !dragging && !drawGridFlag
      ensures lines == [] && circles == [] && rects == [] && funcs == [] && others == []
      ensures ctx.log == [C.ResizeSurface(width, height)] + CurrentFrame()
    {
      var s := Merge(options);
      var c := new real[2];
      c[0], c[1] := s.defaultCenter.0, s.defaultCenter.1;
      center := c;
      radX := s.defaultZoom;
      aspect := 0.0;
      fullsize := s.fullsize;
      autosize := EffectiveAutosize(s);
      width := s.width.GetOr(0.0);
      height := s.height.GetOr(0.0);
      ctx := new C.Context();
      dragging := false;
      drawGridFlag := false;
      lines, circles, rects, funcs, others := [], [], [], [], [];
      new;
      Resize(windowSize, boxSize);
      assert ctx.log == [C.ResizeSurface(width, height)];
      DrawGraph();
    }

    /** drawGraph: repaint the whole frame for the current state. */
    method DrawGraph()
      requires Valid()
      modifies ctx
      ensures ctx.log == old(ctx.log) + CurrentFrame()
    {
      var v := View();
      ghost var start := ctx.log;
      ctx.Issue(C.SetProp("fillStyle", C.Str("rgba(255, 255, 255)")));
      ctx.Issue(C.FillRect(0.0, 0.0, width, height));
      if DrawGrid() {
        DrawLines();
      }
      ghost var log0 := ctx.log;
      assert log0 == start + (Background(v) + (if drawGridFlag then G.GridCmds(v) else []));
      P.DrawAll(ctx, funcs, v);
      ghost var log1 := ctx.log;
      P.DrawAll(ctx, rects, v);
      ghost var log2 := ctx.log;
      P.DrawAll(ctx, lines, v);
      ghost var log3 := ctx.log;
      P.DrawAll(ctx, circles, v);
      ghost var log4 := ctx.log;
      P.DrawAll(ctx, others, v);
      FrameSplit(start, v, drawGridFlag, funcs, rects, lines, circles, others, log0, log1, log2, log3, log4, ctx.log);
    }

    /** drawLines: the unit grid over the visible area, then the visible axes. */
    method DrawLines()
      requires Valid()
      modifies ctx
      ensures ctx.log == old(ctx.log) + G.GridCmds(View())
    {
      G.DrawLines(ctx, View());
    }

    /** dragStart: a press starts a drag. */
    method DragStart()
      modifies this
      ensures dragging
      ensures radX == old(radX) && aspect == old(aspect) && width == old(width) && height == old(height)
      ensures drawGridFlag == old(drawGridFlag) && lines == old(lines) && circles == old(circles)
      ensures rects == old(rects) && funcs == old(funcs) && others == old(others)
    {
      dragging := true;
    }

    /** dragEnd: a release ends the drag. */
    method DragEnd()
      modifies this
      ensures !dragging
      ensures radX == old(radX) && aspect == old(aspect) && width == old(width) && height == old(height)
      ensures drawGridFlag == old(drawGridFlag) && lines == old(lines) && circles == old(circles)
      ensures rects == old(rects) && funcs == old(funcs) && others == old(others)
    {
      dragging := false;
    }

    /**
     * dragMove with the pointer's movement (dx, dy) in pixels: ignored unless
     * dragging; otherwise the view pans with the pointer and is redrawn.
     */
    method DragMove(dx: real, dy: real)
      requires Valid()
      modifies center, ctx
      ensures Valid()
      ensures !dragging ==> unchanged(center) && ctx.log == old(ctx.log)
      ensures dragging ==> View() == Pan(old(View()), dx, dy) && ctx.log == old(ctx.log) + CurrentFrame()
    {
      if !dragging {
        return;
      }
      var gdx := -Sctg(View(), dx);
      var gdy := Sctg(View(), dy);
      center[0] := center[0] + gdx;
      center[1] := center[1] + gdy;
      DrawGraph();
    }

    /** onScroll: one zoom step about the cursor (mx, my), then a redraw. */
    method OnScroll(deltaY: real, mx: real, my: real)
      requires Valid()
      modifies this, center, ctx
      ensures Valid()
      ensures View() == Zoom(old(View()), deltaY, mx, my)
      ensures dragging == old(dragging) && drawGridFlag == old(drawGridFlag)
      ensures lines == old(lines) && circles == old(circles) && rects == old(rects)
      ensures funcs == old(funcs) && others == old(others)
      ensures ctx.log == old(ctx.log) + CurrentFrame()
    {
      var v := View();
      var radY := RadY(v);
      var newRadX := radX * ZoomFactor(Sign(deltaY));
      var newRadY := newRadX / aspect;
      var newCenterX := (mx / width * 2.0) * (radX - newRadX) + center[0] + newRadX - radX;
      var newCenterY := (2.0 - my / height * 2.0) * (radY - newRadY) + center[1] + newRadY - radY;
      center[0] := newCenterX;
      center[1] := newCenterY;
      radX := newRadX;
      DrawGraph();
    }

    /**
     * resize: take the size from the window (fullsize) or the container
     * (autosize), recompute the aspect ratio and resize the surface. It does
     * not redraw.
     */
    method Resize(windowSize: (real, real), boxSize: (real, real))
      requires center.Length == 2 && radX != 0.0 && !(fullsize && autosize)
      requires var sz := SizeFrom(SizeSourceOf(fullsize, autosize), windowSize, boxSize, (width, height));
               sz.0 != 0.0 && sz.1 != 0.0
      modifies this, ctx
      ensures Valid()
      ensures (width, height) == SizeFrom(SizeSourceOf(fullsize, autosize), windowSize, boxSize, old((width, height)))
      ensures aspect == width / height
      ensures radX == old(radX) && dragging == old(dragging) && drawGridFlag == old(drawGridFlag)
      ensures lines == old(lines) && circles == old(circles) && rects == old(rects)
      ensures funcs == old(funcs) && others == old(others)
      ensures ctx.log == old(ctx.log) + [C.ResizeSurface(width, height)]
    {
      if fullsize {
        width := windowSize.0;
        height := windowSize.1;
      } else if autosize {
        width := boxSize.0;
        height := boxSize.1;
      }
      aspect := width / height;
      ctx.Issue(C.ResizeSurface(width, height));
    }

    /** AddLine: append a line drawer and redraw. */
    method AddLine(d: P.Drawer)
      requires Valid()
      modifies this, ctx
      ensures Valid() && View() == old(View())
      ensures lines == old(lines) + [d]
      ensures circles == old(circles) && rects == old(rects) && funcs == old(funcs) && others == old(others)
      ensures dragging == old(dragging) && drawGridFlag == old(drawGridFlag)
      ensures ctx.log == old(ctx.log) + CurrentFrame()
    {
      lines := lines + [d];
      DrawGraph();
    }

    /** AddCircle: append a circle drawer and redraw. */
    method AddCircle(d: P.Drawer)
      requires Valid()
      modifies this, ctx
      ensures Valid() && View() == old(View())
      ensures circles == old(circles) + [d]
      ensures lines == old(lines) && rects == old(rects) && funcs == old(funcs) && others == old(others)
      ensures dragging == old(dragging) && drawGridFlag == old(drawGridFlag)
      ensures ctx.log == old(ctx.log) + CurrentFrame()
    {
      circles := circles + [d];
      DrawGraph();
    }

    /** AddRect: append a rectangle drawer and redraw. */
    method AddRect(d: P.Drawer)
      requires Valid()
      modifies this, ctx
      ensures Valid() && View() == old(View())
      ensures rects == old(rects) + [d]
      ensures lines == old(lines) && circles == old(circles) && funcs == old(funcs) && others == old(others)
      ensures dragging == old(dragging) && drawGridFlag == old(drawGridFlag)
      ensures ctx.log == old(ctx.log) + CurrentFrame()
    {
      rects := rects + [d];
      DrawGraph();
    }

    /** AddFunc: append a function drawer and redraw. */
    method AddFunc(d: P.Drawer)
      requires Valid()
      modifies this, ctx
      ensures Valid() && View() == old(View())
      ensures funcs == old(funcs) + [d]
      ensures lines == old(lines) && circles == old(circles) && rects == old(rects) && others == old(others)
      ensures dragging == old(dragging) && drawGridFlag == old(drawGridFlag)
      ensures ctx.log == old(ctx.log) + CurrentFrame()
    {
      funcs := funcs + [d];
      DrawGraph();
    }

    /** AddOther: append a custom drawer and redraw. */
    method AddOther(d: P.Drawer)
      requires Valid()
      modifies this, ctx
      ensures Valid() && View() == old(View())
      ensures others == old(others) + [d]
      ensures lines == old(lines) && circles == old(circles) && rects == old(rects) && funcs == old(funcs)
      ensures dragging == old(dragging) && drawGridFlag == old(drawGridFlag)
      ensures ctx.log == old(ctx.log) + CurrentFrame()
    {
      others := others + [d];
      DrawGraph();
    }

    /** The drawGrid setter: store the flag and redraw. */
    method SetDrawGrid(value: bool)
      requires Valid()
      modifies this, ctx
      ensures Valid() && View() == old(View())
      ensures drawGridFlag == value && DrawGrid() == value
      ensures lines == old(lines) && circles == old(circles) && rects == old(rects)
      ensures funcs == old(funcs) && others == old(others) && dragging == old(dragging)
      ensures ctx.log == old(ctx.log) + CurrentFrame()
    {
      drawGridFlag := value;
      DrawGraph();
    }
  }

  /** Assembles a frame from the log after each of its layers. */
  lemma FrameSplit(start: seq<C.Cmd>, v: View, grid: bool, fs: seq<P.Drawer>, rs: seq<P.Drawer>, ls: seq<P.Drawer>,
                   cs: seq<P.Drawer>, os: seq<P.Drawer>,
                   log0: seq<C.Cmd>, log1: seq<C.Cmd>, log2: seq<C.Cmd>, log3: seq<C.Cmd>, log4: seq<C.Cmd>, log5: seq<C.Cmd>)
    requires NonZero(v)
    requires log0 == start + (Background(v) + (if grid then G.GridCmds(v) else []))
    requires log1 == log0 + P.RenderAll(fs, v) && log2 == log1 + P.RenderAll(rs, v)
    requires log3 == log2 + P.RenderAll(ls, v) && log4 == log3 + P.RenderAll(cs, v)
    requires log5 == log4 + P.RenderAll(os, v)
    ensures log5 == start + Frame(v, grid, fs, rs, ls, cs, os)
  {
    var b := Background(v) + (if grid then G.GridCmds(v) else []);
    var f, r, l, c := P.RenderAll(fs, v), P.RenderAll(rs, v), P.RenderAll(ls, v), P.RenderAll(cs, v);
    C.Appended(start, b, f);
    C.Appended(start, b + f, r);
    C.Appended(start, b + f + r, l);
    C.Appended(start, b + f + r + l, c);
    C.Appended(start, b + f + r + l + c, P.RenderAll(os, v));
  }

  /** Options given win over the defaults; options left out take them. */
  lemma MergeOptions(o: GraphOptions)
    ensures Merge(NoOptions) == Defaults
    ensures var s := Merge(o);
            (o.fullsize.Some? ==> s.fullsize == o.fullsize.value) &&
            (o.autosize.Some? ==> s.autosize == o.autosize.value) &&
            (o.width.Some? ==> s.width == o.width) && (o.height.Some? ==> s.height == o.height) &&
            (o.defaultZoom.Some? ==> s.defaultZoom == o.defaultZoom.value) &&
            (o.defaultCenter.Some? ==> s.defaultCenter == o.defaultCenter.value)
    ensures var s := Merge(o);
            (o.fullsize.None? ==> !s.fullsize) && (o.autosize.None? ==> s.autosize) &&
            (o.width.None? ==> s.width.None?) && (o.height.None? ==> s.height.None?) &&
            (o.defaultZoom.None? ==> s.defaultZoom == 5.0) &&
            (o.defaultCenter.None? ==> s.defaultCenter == (0.0, 0.0))
  {
  }

  /**
   * The resize event a graph listens to is the one for the size resize
   * reads, and a graph with a fixed size listens to none.
   */
  lemma ListenerMatchesResize(s: Settings)
    ensures var a := EffectiveAutosize(s);
            var src := SizeSourceOf(s.fullsize, a);
            ListenerOf(s.fullsize, a) == (if src == FixedSize then None else Some(src))
  {
  }

  /**
   * A drawer added to a list is drawn after everything already in that list
   * and before every later layer; a custom drawer added last paints over the
   * whole frame.
   */
  lemma AddedLineOrder(v: View, grid: bool, fs: seq<P.Drawer>, rs: seq<P.Drawer>, ls: seq<P.Drawer>,
                       cs: seq<P.Drawer>, os: seq<P.Drawer>, d: P.Drawer)
    requires NonZero(v)
    ensures Frame(v, grid, fs, rs, ls + [d], cs, os) ==
            Frame(v, grid, fs, rs, ls, [], []) + P.Render(d, v) + P.RenderAll(cs, v) + P.RenderAll(os, v)
    ensures Frame(v, grid, fs, rs, ls, cs, os + [d]) == Frame(v, grid, fs, rs, ls, cs, os) + P.Render(d, v)
  {
    P.RenderAllSnoc(ls, d, v);
    P.RenderAllSnoc(os, d, v);
    var b := Background(v) + (if grid then G.GridCmds(v) else []);
    var f, r, l, c, o, x := P.RenderAll(fs, v), P.RenderAll(rs, v), P.RenderAll(ls, v),
                            P.RenderAll(cs, v), P.RenderAll(os, v), P.Render(d, v);
    assert P.RenderAll([], v) == [];
    Layered(b, f, r, l, c, o, x);
  }

  lemma Layered<T>(b: seq<T>, f: seq<T>, r: seq<T>, l: seq<T>, c: seq<T>, o: seq<T>, x: seq<T>)
    ensures b + f + r + (l + x) + c + o == b + f + r + l + [] + [] + x + c + o
    ensures b + f + r + l + c + (o + x) == b + f + r + l + c + o + x
  {
  }

  /** Turning the grid on inserts exactly the grid's calls between the background and the drawers. */
  lemma GridToggle(v: View, fs: seq<P.Drawer>, rs: seq<P.Drawer>, ls: seq<P.Drawer>,
                   cs: seq<P.Drawer>, os: seq<P.Drawer>)
    requires NonZero(v)
    ensures var off := Frame(v, false, fs, rs, ls, cs, os);
            |off| >= 2 && Frame(v, true, fs, rs, ls, cs, os) == off[..2] + G.GridCmds(v) + off[2..]
  {
    var f, r, l, c, o := P.RenderAll(fs, v), P.RenderAll(rs, v), P.RenderAll(ls, v),
                         P.RenderAll(cs, v), P.RenderAll(os, v);
    Inserted(Background(v), G.GridCmds(v), f, r, l, c, o);
  }

  lemma Inserted<T>(b: seq<T>, g: seq<T>, f: seq<T>, r: seq<T>, l: seq<T>, c: seq<T>, o: seq<T>)
    requires |b| == 2
    ensures var off := b + [] + f + r + l + c + o;
            |off| >= 2 && b + g + f + r + l + c + o == off[..2] + g + off[2..]
  {
    var off := b + [] + f + r + l + c + o;
    assert off[..2] == b;
    assert off[2..] == f + r + l + c + o;
  }

  /** The background covers the whole visible area: its corners are the view's corners. */
  lemma BackgroundCoversView(v: View)
    requires NonZero(v)
    ensures var r := Background(v)[1];
            r.FillRect? &&
            Ctg(v, r.x, r.y) == Point(v.cx - v.radX, v.cy + RadY(v)) &&
            Ctg(v, r.x + r.w, r.y + r.h) == Point(v.cx + v.radX, v.cy - RadY(v))
  {
    CanvasToCorners(v);
  }
}
