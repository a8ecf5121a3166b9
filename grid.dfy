/**
 * What drawLines draws: a light grid line at every integer across the visible
 * area, then the two axes in a heavier stroke when they are in view.
 */
module Grid {
  import opened Transform
  import opened Canvas

  /** beginPath, moveTo(a), lineTo(b), stroke: one stroked segment between two canvas pixels. */
  function Segment(a: Pixel, b: Pixel): seq<Cmd> {
    [BeginPath, MoveTo(a.x as real, a.y as real), LineTo(b.x as real, b.y as real), Stroke]
  }

  /** The integers lo, lo + 1, ..., hi in order (empty when hi < lo). */
  function Range(lo: int, hi: int): (ks: seq<int>)
    decreases hi - lo
    ensures |ks| == if hi < lo then 0 else hi - lo + 1
  {
    if hi < lo then [] else Range(lo, hi - 1) + [hi]
  }

  /** The i-th position of Range(lo, hi) is lo + i. */
  lemma {:induction false} RangeAt(lo: int, hi: int, i: int)
    requires 0 <= i < |Range(lo, hi)|
    ensures Range(lo, hi)[i] == lo + i
    decreases hi - lo
  {
    if i < hi - lo {
      RangeAt(lo, hi - 1, i);
    }
  }

  /** Graph x of the vertical grid lines: from floor(cx - radX) while x <= cx + radX. */
  function GridXs(v: View): seq<int> {
    Range((v.cx - v.radX).Floor, (v.cx + v.radX).Floor)
  }

  /** Graph y of the horizontal grid lines: from floor(cy - radY) while y <= cy + radY. */
  function GridYs(v: View): seq<int>
    requires v.aspect != 0.0
  {
    Range((v.cy - RadY(v)).Floor, (v.cy + RadY(v)).Floor)
  }

  /** The grid line at k: vertical from the top edge to the bottom edge, or horizontal from the left edge to the right edge. */
  function GridLine(v: View, vertical: bool, k: int): seq<Cmd>
    requires v.radX != 0.0 && v.aspect != 0.0
  {
    if vertical then Segment(Gtc(v, k as real, v.cy + RadY(v)), Gtc(v, k as real, v.cy - RadY(v)))
    else Segment(Gtc(v, v.cx - v.radX, k as real), Gtc(v, v.cx + v.radX, k as real))
  }

  /** The grid lines at lo, lo + 1, ..., hi, in order. */
  function GridLines(v: View, vertical: bool, lo: int, hi: int): (r: seq<Cmd>)
    requires v.radX != 0.0 && v.aspect != 0.0
    decreases hi - lo
    ensures |r| == if hi < lo then 0 else 4 * (hi - lo + 1)
  {
    if hi < lo then [] else GridLines(v, vertical, lo, hi - 1) + GridLine(v, vertical, hi)
  }

  /** The y-axis (x = 0) is in view. */
  predicate YAxisVisible(v: View) {
    0.0 >= v.cx - v.radX && 0.0 <= v.cx + v.radX
  }

  /** The x-axis (y = 0) is in view. */
  predicate XAxisVisible(v: View)
    requires v.aspect != 0.0
  {
    0.0 >= v.cy - RadY(v) && 0.0 <= v.cy + RadY(v)
  }

  /** The axes: each is the grid line at 0, drawn only when 0 is in view. */
  function AxisCmds(v: View): seq<Cmd>
    requires v.radX != 0.0 && v.aspect != 0.0
  {
    (if YAxisVisible(v) then GridLine(v, true, 0) else []) +
    (if XAxisVisible(v) then GridLine(v, false, 0) else [])
  }

  /** The vertical grid lines, left to right. */
  function VerticalLines(v: View): seq<Cmd>
    requires v.radX != 0.0 && v.aspect != 0.0
  {
    GridLines(v, true, (v.cx - v.radX).Floor, (v.cx + v.radX).Floor)
  }

  /** The horizontal grid lines, bottom to top. */
  function HorizontalLines(v: View): seq<Cmd>
    requires v.radX != 0.0 && v.aspect != 0.0
  {
    GridLines(v, false, (v.cy - RadY(v)).Floor, (v.cy + RadY(v)).Floor)
  }

  /** The light grid: thin grey vertical lines, then horizontal ones. */
  function LightGrid(v: View): seq<Cmd>
    requires v.radX != 0.0 && v.aspect != 0.0
  {
    [SetProp("strokeStyle", Str("rgb(150, 150, 150)")), SetProp("lineWidth", Num(1.0))] +
    VerticalLines(v) + HorizontalLines(v)
  }

  /** The axes in a heavier black stroke. */
  function Axes(v: View): seq<Cmd>
    requires v.radX != 0.0 && v.aspect != 0.0
  {
    [SetProp("strokeStyle", Str("rgb(0, 0, 0)")), SetProp("lineWidth", Num(2.0))] + AxisCmds(v)
  }

  /** Everything drawLines issues, in order. */
  function GridCmds(v: View): seq<Cmd>
    requires v.radX != 0.0 && v.aspect != 0.0
  {
    LightGrid(v) + Axes(v)
  }

  /** k is in Range(lo, hi) exactly when lo <= k <= hi. */
  lemma InRange(lo: int, hi: int, k: int)
    ensures k in Range(lo, hi) <==> lo <= k <= hi
  {
    var ks := Range(lo, hi);
    if lo <= k <= hi {
      RangeAt(lo, hi, k - lo);
    }
    if k in ks {
      var i :| 0 <= i < |ks| && ks[i] == k;
      RangeAt(lo, hi, i);
    }
  }

  /**
   * Vertical grid lines stand at exactly the integers k with
   * floor(cx - radX) <= k <= cx + radX, horizontal ones at exactly the
   * integers k with floor(cy - radY) <= k <= cy + radY.
   */
  lemma GridPositions(v: View, k: int)
    requires v.aspect != 0.0
    ensures k in GridXs(v) <==> (v.cx - v.radX).Floor <= k && k as real <= v.cx + v.radX
    ensures k in GridYs(v) <==> (v.cy - RadY(v)).Floor <= k && k as real <= v.cy + RadY(v)
  {
    InRange((v.cx - v.radX).Floor, (v.cx + v.radX).Floor, k);
    InRange((v.cy - RadY(v)).Floor, (v.cy + RadY(v)).Floor, k);
  }

  /**
   * The vertical grid covers the visible width at unit spacing: there is at
   * least one line, the first lies less than one unit left of the left edge,
   * every other line is inside the visible range, and the last lies less than
   * one unit left of the right edge.
   */
  lemma GridCoversWidth(v: View)
    requires v.radX > 0.0
    ensures var xs := GridXs(v);
      |xs| >= 1 &&
      v.cx - v.radX - 1.0 < xs[0] as real <= v.cx - v.radX &&
      (forall i :: 1 <= i < |xs| ==> v.cx - v.radX < xs[i] as real <= v.cx + v.radX) &&
      v.cx + v.radX - 1.0 < xs[|xs| - 1] as real <= v.cx + v.radX
  {
    var lo, hi := (v.cx - v.radX).Floor, (v.cx + v.radX).Floor;
    assert lo <= hi;
    var xs := GridXs(v);
    forall i | 1 <= i < |xs|
      ensures v.cx - v.radX < xs[i] as real <= v.cx + v.radX
    {
      RangeAt(lo, hi, i);
    }
    RangeAt(lo, hi, 0);
    RangeAt(lo, hi, |xs| - 1);
  }

  /** A visible axis always lies on a grid line. */
  lemma AxisOnGridLine(v: View)
    requires v.aspect != 0.0
    ensures YAxisVisible(v) ==> 0 in GridXs(v)
    ensures XAxisVisible(v) ==> 0 in GridYs(v)
  {
    GridPositions(v, 0);
  }

  /** Block i of the grid lines (commands 4i to 4i + 3) is the line at position i of Range(lo, hi). */
  lemma {:induction false} GridLineAt(v: View, vertical: bool, lo: int, hi: int, i: int)
    requires v.radX != 0.0 && v.aspect != 0.0
    requires 0 <= i < |Range(lo, hi)|
    ensures GridLines(v, vertical, lo, hi)[4 * i .. 4 * i + 4] == GridLine(v, vertical, Range(lo, hi)[i])
    decreases hi - lo
  {
    RangeAt(lo, hi, i);
    var front, back := GridLines(v, vertical, lo, hi - 1), GridLine(v, vertical, hi);
    assert GridLines(v, vertical, lo, hi) == front + back;
    if i < hi - lo {
      GridLineAt(v, vertical, lo, hi - 1, i);
      RangeAt(lo, hi - 1, i);
      SliceLeft(front, back, 4 * i, 4 * i + 4);
    } else {
      SliceRight(front, back);
    }
  }

  /** The vertical lines are one line for each x of GridXs, in the same order. */
  lemma VerticalLinesAt(v: View, i: int)
    requires v.radX != 0.0 && v.aspect != 0.0
    ensures |VerticalLines(v)| == 4 * |GridXs(v)|
    ensures 0 <= i < |GridXs(v)| ==> VerticalLines(v)[4 * i .. 4 * i + 4] == GridLine(v, true, GridXs(v)[i])
  {
    if 0 <= i < |GridXs(v)| {
      GridLineAt(v, true, (v.cx - v.radX).Floor, (v.cx + v.radX).Floor, i);
    }
  }

  /** The horizontal lines are one line for each y of GridYs, in the same order. */
  lemma HorizontalLinesAt(v: View, i: int)
    requires v.radX != 0.0 && v.aspect != 0.0
    ensures |HorizontalLines(v)| == 4 * |GridYs(v)|
    ensures 0 <= i < |GridYs(v)| ==> HorizontalLines(v)[4 * i .. 4 * i + 4] == GridLine(v, false, GridYs(v)[i])
  {
    if 0 <= i < |GridYs(v)| {
      GridLineAt(v, false, (v.cy - RadY(v)).Floor, (v.cy + RadY(v)).Floor, i);
    }
  }

  /** drawLines on a context, for the viewport snapshot v. */
  method DrawLines(ctx: Context, v: View)
    requires v.radX != 0.0 && v.aspect != 0.0
    modifies ctx
    ensures ctx.log == old(ctx.log) + GridCmds(v)
  {
    DrawLightGrid(ctx, v);
    DrawAxes(ctx, v);
    Appended(old(ctx.log), LightGrid(v), Axes(v));
  }

  /** The first half of drawLines: the grey unit grid. */
  method DrawLightGrid(ctx: Context, v: View)
    requires v.radX != 0.0 && v.aspect != 0.0
    modifies ctx
    ensures ctx.log == old(ctx.log) + LightGrid(v)
  {
    SetStyle(ctx, "rgb(150, 150, 150)", 1.0);
    DrawGridLines(ctx, v, true, v.cx - v.radX, v.cx + v.radX);
    DrawGridLines(ctx, v, false, v.cy - RadY(v), v.cy + RadY(v));
    var style := [SetProp("strokeStyle", Str("rgb(150, 150, 150)")), SetProp("lineWidth", Num(1.0))];
    Appended(old(ctx.log), style, VerticalLines(v));
    Appended(old(ctx.log), style + VerticalLines(v), HorizontalLines(v));
  }

  /** The second half of drawLines: the axes that are in view. */
  method DrawAxes(ctx: Context, v: View)
    requires v.radX != 0.0 && v.aspect != 0.0
    modifies ctx
    ensures ctx.log == old(ctx.log) + Axes(v)
  {
    SetStyle(ctx, "rgb(0, 0, 0)", 2.0);
    DrawAxis(ctx, v, true);
    DrawAxis(ctx, v, false);
    var style := [SetProp("strokeStyle", Str("rgb(0, 0, 0)")), SetProp("lineWidth", Num(2.0))];
    var y := if YAxisVisible(v) then GridLine(v, true, 0) else [];
    Appended(old(ctx.log), style, y);
    Appended(old(ctx.log), style + y, if XAxisVisible(v) then GridLine(v, false, 0) else []);
  }

  /** One of drawLines' axes: the line at 0, drawn when 0 is within the visible range. */
  method DrawAxis(ctx: Context, v: View, vertical: bool)
    requires v.radX != 0.0 && v.aspect != 0.0
    modifies ctx
    ensures vertical ==> ctx.log == old(ctx.log) + (if YAxisVisible(v) then GridLine(v, true, 0) else [])
    ensures !vertical ==> ctx.log == old(ctx.log) + (if XAxisVisible(v) then GridLine(v, false, 0) else [])
  {
    if vertical {
      if 0.0 >= v.cx - v.radX && 0.0 <= v.cx + v.radX {
        DrawSegment(ctx, Gtc(v, 0.0, v.cy + RadY(v)), Gtc(v, 0.0, v.cy - RadY(v)));
      }
    } else {
      if 0.0 >= v.cy - RadY(v) && 0.0 <= v.cy + RadY(v) {
        DrawSegment(ctx, Gtc(v, v.cx - v.radX, 0.0), Gtc(v, v.cx + v.radX, 0.0));
      }
    }
  }

  /** One of drawLines' loops: a grid line at every integer k from floor(lo) while k <= hi. */
  method DrawGridLines(ctx: Context, v: View, vertical: bool, lo: real, hi: real)
    requires v.radX != 0.0 && v.aspect != 0.0
    modifies ctx
    ensures ctx.log == old(ctx.log) + GridLines(v, vertical, lo.Floor, hi.Floor)
  {
    var k := lo.Floor;
    while k as real <= hi
      invariant k == lo.Floor || lo.Floor <= k <= hi.Floor + 1
      invariant ctx.log == old(ctx.log) + GridLines(v, vertical, lo.Floor, k - 1)
      decreases hi.Floor + 1 - k
    {
      var a, b;
      if vertical {
        a, b := Gtc(v, k as real, v.cy + RadY(v)), Gtc(v, k as real, v.cy - RadY(v));
      } else {
        a, b := Gtc(v, v.cx - v.radX, k as real), Gtc(v, v.cx + v.radX, k as real);
      }
      assert Segment(a, b) == GridLine(v, vertical, k);
      Appended(old(ctx.log), GridLines(v, vertical, lo.Floor, k - 1), Segment(a, b));
      DrawSegment(ctx, a, b);
      k := k + 1;
    }
    assert k - 1 == hi.Floor || hi.Floor < lo.Floor;
  }

  /** The stroke colour and line width drawLines sets before each half. */
  method SetStyle(ctx: Context, color: string, width: real)
    modifies ctx
    ensures ctx.log == old(ctx.log) + [SetProp("strokeStyle", Str(color)), SetProp("lineWidth", Num(width))]
  {
    ctx.Issue(SetProp("strokeStyle", Str(color)));
    ctx.Issue(SetProp("lineWidth", Num(width)));
  }

  /** beginPath, moveTo(a), lineTo(b), stroke. */
  method DrawSegment(ctx: Context, a: Pixel, b: Pixel)
    modifies ctx
    ensures ctx.log == old(ctx.log) + Segment(a, b)
  {
    ctx.Issue(BeginPath);
    ctx.Issue(MoveTo(a.x as real, a.y as real));
    ctx.Issue(LineTo(b.x as real, b.y as real));
    ctx.Issue(Stroke);
  }

  lemma SliceLeft<T>(a: seq<T>, b: seq<T>, lo: int, hi: int)
    requires 0 <= lo <= hi <= |a|
    ensures (a + b)[lo..hi] == a[lo..hi]
  {
  }

  lemma SliceRight<T>(a: seq<T>, b: seq<T>)
    ensures (a + b)[|a|..|a| + |b|] == b
  {
  }
}
