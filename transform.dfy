/**
 * The transform engine: conversions between graph space (Y up, arbitrary units)
 * and canvas space (pixels, Y down) for one snapshot of the viewport.
 * Every conversion reads the snapshot only; nothing here changes state.
 */
module Transform {

  /** A point in graph space. */
  datatype Point = Point(x: real, y: real)

  /** A canvas position as gtc returns it: both coordinates floored to whole pixels. */
  datatype Pixel = Pixel(x: int, y: int)

  /**
   * The viewport snapshot a frame is drawn with: the centre (cx, cy), the
   * horizontal half-extent radX, the aspect ratio and the canvas size in pixels.
   */
  datatype View = View(cx: real, cy: real, radX: real, aspect: real, width: real, height: real)

  /** Every divisor the conversions use is non-zero. */
  predicate NonZero(v: View) {
    v.radX != 0.0 && v.aspect != 0.0 && v.width != 0.0 && v.height != 0.0
  }

  /** The state a viewport is kept in: positive radius, aspect and canvas size. */
  predicate Positive(v: View) {
    v.radX > 0.0 && v.aspect > 0.0 && v.width > 0.0 && v.height > 0.0
  }

  /** The aspect ratio is the canvas's width over its height, as resize sets it. */
  predicate Proportional(v: View) {
    v.height != 0.0 && v.aspect == v.width / v.height
  }

  /** The vertical half-extent, derived from radX and the aspect ratio. */
  function RadY(v: View): (r: real)
    requires v.aspect != 0.0
    ensures Positive(v) ==> r > 0.0
  {
    v.radX / v.aspect
  }

  /** radY is the half-extent whose ratio to radX is the aspect ratio. */
  lemma RadYAspect(v: View)
    requires v.aspect != 0.0
    ensures RadY(v) * v.aspect == v.radX
    ensures v.radX != 0.0 ==> RadY(v) != 0.0
  {
  }

  /** The un-floored canvas x of graph x. */
  function GtcX(v: View, x: real): real
    requires v.radX != 0.0
  {
    (x - v.cx + v.radX) / v.radX / 2.0 * v.width
  }

  /** The un-floored canvas y of graph y. */
  function GtcY(v: View, y: real): real
    requires v.radX != 0.0 && v.aspect != 0.0
  {
    (1.0 - (y - v.cy + RadY(v)) / RadY(v) / 2.0) * v.height
  }

  /** gtc: a graph point to the canvas pixel that contains it. */
  function Gtc(v: View, x: real, y: real): (p: Pixel)
    requires v.radX != 0.0 && v.aspect != 0.0
    ensures p.x as real <= GtcX(v, x) < p.x as real + 1.0
    ensures p.y as real <= GtcY(v, y) < p.y as real + 1.0
  {
    Pixel(GtcX(v, x).Floor, GtcY(v, y).Floor)
  }

  /** sgtc: a graph length to a canvas length (horizontal scale, used on both axes). */
  function Sgtc(v: View, n: real): real
    requires v.radX != 0.0
  {
    n / v.radX / 2.0 * v.width
  }

  /** ctg: a canvas point back to graph space, without rounding. */
  function Ctg(v: View, sx: real, sy: real): Point
    requires NonZero(v)
  {
    Point(sx / v.width * v.radX * 2.0 + v.cx - v.radX,
          (1.0 - sy / v.height) * RadY(v) * 2.0 + v.cy - RadY(v))
  }

  /** sctg: a canvas length back to a graph length. */
  function Sctg(v: View, n: real): real
    requires v.width != 0.0
  {
    n / v.width * v.radX * 2.0
  }

  /** Canvas pixels per graph unit across (sgtc of 1). */
  function XScale(v: View): real
    requires v.radX != 0.0
  {
    v.width / v.radX / 2.0
  }

  /** Canvas pixels per graph unit down. */
  function YScale(v: View): real
    requires v.radX != 0.0 && v.aspect != 0.0
  {
    v.height / RadY(v) / 2.0
  }

  /** The two scales are non-zero, and positive on a positive view. */
  lemma Scales(v: View)
    requires NonZero(v)
    ensures XScale(v) != 0.0 && YScale(v) != 0.0
    ensures Positive(v) ==> XScale(v) > 0.0 && YScale(v) > 0.0
  {
  }

  /** The two scales are equal when aspect = width / height. */
  lemma ScalesAgree(v: View)
    requires Positive(v) && Proportional(v)
    ensures YScale(v) == XScale(v)
  {
    var ry := RadY(v);
    assert ry * v.width == v.radX * v.height;
    assert v.height / ry / 2.0 == v.width / v.radX / 2.0;
  }

  lemma Reciprocal(a: real, b: real)
    requires a != 0.0 && b != 0.0
    ensures 1.0 / (a / b / 2.0) == 2.0 * b / a
  {
  }

  lemma GtcXForm(v: View, x: real)
    requires v.radX != 0.0
    ensures GtcX(v, x) == (x - v.cx + v.radX) * XScale(v)
  {
  }

  /** A full extent (twice the radius) spans the whole canvas. */
  lemma ScaleExtent(v: View)
    requires NonZero(v)
    ensures 2.0 * v.radX * XScale(v) == v.width && 2.0 * RadY(v) * YScale(v) == v.height
  {
    var ry := RadY(v);
    assert 2.0 * ry * (v.height / ry / 2.0) == v.height;
  }

  /** The conversions written as affine maps with the two scales. */
  lemma GtcYForm(v: View, y: real)
    requires v.radX != 0.0 && v.aspect != 0.0
    ensures GtcY(v, y) == (v.cy + RadY(v) - y) * YScale(v)
  {
    var ry := RadY(v);
    var a := y - v.cy + ry;
    assert a / ry + (v.cy + ry - y) / ry == (a + (v.cy + ry - y)) / ry;
    assert (a + (v.cy + ry - y)) / ry == 2.0 * ry / ry == 2.0;
    assert 1.0 - a / ry / 2.0 == (v.cy + ry - y) / ry / 2.0;
  }

  lemma CtgXForm(v: View, sx: real, sy: real)
    requires NonZero(v)
    ensures Ctg(v, sx, sy).x == sx / XScale(v) + v.cx - v.radX
  {
  }

  lemma CtgYForm(v: View, sx: real, sy: real)
    requires NonZero(v)
    ensures Ctg(v, sx, sy).y == v.cy + RadY(v) - sy / YScale(v)
  {
    var ry := RadY(v);
    assert (1.0 - sy / v.height) * ry * 2.0 == ry * 2.0 - sy / v.height * ry * 2.0;
    assert sy / v.height * ry * 2.0 == sy / (v.height / ry / 2.0);
  }

  lemma Cancel(s: real, a: real)
    requires s != 0.0
    ensures a * s / s == a && a / s * s == a
  {
  }

  lemma DivExact(a: real, b: real, s: real)
    requires s != 0.0 && a == b * s
    ensures a / s == b
  {
  }

  /** Flooring before dividing by a positive scale loses less than 1 / scale. */
  lemma FloorDiv(a: real, s: real)
    requires s > 0.0
    ensures a / s - 1.0 / s < a.Floor as real / s <= a / s
  {
    var f := a.Floor as real;
    assert a - 1.0 < f <= a;
    assert a / s - 1.0 / s == (a - 1.0) / s;
    assert a / s - f / s == (a - f) / s;
    assert (a - f) / s >= 0.0;
    assert f / s - (a - 1.0) / s == (f - (a - 1.0)) / s;
    assert (f - (a - 1.0)) / s > 0.0;
  }

  /** Scaling a length to the canvas and back, either way round, gives it back exactly. */
  lemma ScalarRoundTrip(v: View, n: real)
    requires v.radX != 0.0 && v.width != 0.0
    ensures Sctg(v, Sgtc(v, n)) == n
    ensures Sgtc(v, Sctg(v, n)) == n
  {
    var s := XScale(v);
    assert s != 0.0;
    assert Sgtc(v, n) == n * s;
    assert Sctg(v, n) == n / s;
    assert Sctg(v, n * s) == n * s / s;
    Cancel(s, n);
  }

  /** ctg undoes the un-floored gtc exactly, and the un-floored gtc undoes ctg. */
  lemma PointInverse(v: View, x: real, y: real, sx: real, sy: real)
    requires NonZero(v)
    ensures Ctg(v, GtcX(v, x), GtcY(v, y)) == Point(x, y)
    ensures GtcX(v, Ctg(v, sx, sy).x) == sx && GtcY(v, Ctg(v, sx, sy).y) == sy
  {
    InverseX(v, x, sx, sy);
    InverseY(v, y, sx, sy);
    InverseX(v, x, sx, GtcY(v, y));
    InverseY(v, y, GtcX(v, x), sy);
  }

  lemma InverseX(v: View, x: real, sx: real, sy: real)
    requires NonZero(v)
    ensures Ctg(v, GtcX(v, x), sy).x == x
    ensures GtcX(v, Ctg(v, sx, sy).x) == sx
  {
    Scales(v);
    var s := XScale(v);
    var X := GtcX(v, x);
    var gx := Ctg(v, sx, sy).x;
    assert Ctg(v, X, sy).x == x by {
      CtgXForm(v, X, sy);
      GtcXForm(v, x);
      Cancel(s, x - v.cx + v.radX);
    }
    assert GtcX(v, gx) == sx by {
      CtgXForm(v, sx, sy);
      GtcXForm(v, gx);
      assert gx - v.cx + v.radX == sx / s;
      Cancel(s, sx);
    }
  }

  lemma InverseY(v: View, y: real, sx: real, sy: real)
    requires NonZero(v)
    ensures Ctg(v, sx, GtcY(v, y)).y == y
    ensures GtcY(v, Ctg(v, sx, sy).y) == sy
  {
    CtgAfterGtcY(v, y, sx);
    GtcAfterCtgY(v, sx, sy);
  }

  lemma CtgAfterGtcY(v: View, y: real, sx: real)
    requires NonZero(v)
    ensures Ctg(v, sx, GtcY(v, y)).y == y
  {
    Scales(v);
    var t := YScale(v);
    var Y := GtcY(v, y);
    var b := v.cy + RadY(v) - y;
    assert Y / t == b by {
      GtcYForm(v, y);
      DivExact(Y, b, t);
    }
    CtgYForm(v, sx, Y);
  }

  lemma GtcAfterCtgY(v: View, sx: real, sy: real)
    requires NonZero(v)
    ensures GtcY(v, Ctg(v, sx, sy).y) == sy
  {
    Scales(v);
    var t := YScale(v);
    var gy := Ctg(v, sx, sy).y;
    assert v.cy + RadY(v) - gy == sy / t by { CtgYForm(v, sx, sy); }
    GtcYForm(v, gy);
    Cancel(t, sy);
  }

  /**
   * Because gtc floors, converting a point to the canvas and back loses less
   * than one pixel: x comes back at most one pixel's width smaller, y at most
   * one pixel's height larger.
   */
  lemma PixelRoundTrip(v: View, x: real, y: real)
    requires Positive(v)
    ensures var q := Ctg(v, Gtc(v, x, y).x as real, Gtc(v, x, y).y as real);
            x - 2.0 * v.radX / v.width < q.x <= x &&
            y <= q.y < y + 2.0 * RadY(v) / v.height
  {
    var p := Gtc(v, x, y);
    PixelRoundTripX(v, x, p.y as real);
    PixelRoundTripY(v, y, p.x as real);
  }

  lemma PixelRoundTripX(v: View, x: real, sy: real)
    requires Positive(v)
    ensures var qx := Ctg(v, GtcX(v, x).Floor as real, sy).x;
            x - 2.0 * v.radX / v.width < qx <= x
  {
    Scales(v);
    var s := XScale(v);
    var X := GtcX(v, x);
    assert x == X / s + v.cx - v.radX by {
      InverseX(v, x, 0.0, sy);
      CtgXForm(v, X, sy);
    }
    assert Ctg(v, X.Floor as real, sy).x == X.Floor as real / s + v.cx - v.radX by {
      CtgXForm(v, X.Floor as real, sy);
    }
    FloorDiv(X, s);
    Reciprocal(v.width, v.radX);
  }

  lemma PixelRoundTripY(v: View, y: real, sx: real)
    requires Positive(v)
    ensures var qy := Ctg(v, sx, GtcY(v, y).Floor as real).y;
            y <= qy < y + 2.0 * RadY(v) / v.height
  {
    Scales(v);
    var t := YScale(v);
    var Y := GtcY(v, y);
    assert y == v.cy + RadY(v) - Y / t by {
      InverseY(v, y, sx, 0.0);
      CtgYForm(v, sx, Y);
    }
    assert Ctg(v, sx, Y.Floor as real).y == v.cy + RadY(v) - Y.Floor as real / t by {
      CtgYForm(v, sx, Y.Floor as real);
    }
    FloorDiv(Y, t);
    Reciprocal(v.height, RadY(v));
  }

  /**
   * The top-left corner of the visible area is canvas pixel (0, 0) and the
   * bottom-right corner is the canvas's far corner.
   */
  lemma CornersToCanvas(v: View)
    requires NonZero(v)
    ensures Gtc(v, v.cx - v.radX, v.cy + RadY(v)) == Pixel(0, 0)
    ensures Gtc(v, v.cx + v.radX, v.cy - RadY(v)) == Pixel(v.width.Floor, v.height.Floor)
  {
    var ry := RadY(v);
    assert GtcX(v, v.cx - v.radX) == 0.0 by {
      assert v.cx - v.radX - v.cx + v.radX == 0.0;
    }
    assert GtcY(v, v.cy + ry) == 0.0 by { GtcYForm(v, v.cy + ry); }
    assert GtcX(v, v.cx + v.radX) == v.width by {
      assert v.cx + v.radX - v.cx + v.radX == 2.0 * v.radX;
    }
    assert GtcY(v, v.cy - ry) == v.height by {
      GtcYForm(v, v.cy - ry);
      assert GtcY(v, v.cy - ry) == 2.0 * ry * (v.height / ry / 2.0);
    }
  }

  /** The canvas's corners show the corners of the visible area, and its centre the viewport's centre. */
  lemma CanvasToCorners(v: View)
    requires NonZero(v)
    ensures Ctg(v, 0.0, 0.0) == Point(v.cx - v.radX, v.cy + RadY(v))
    ensures Ctg(v, v.width, v.height) == Point(v.cx + v.radX, v.cy - RadY(v))
    ensures Ctg(v, v.width / 2.0, v.height / 2.0) == Point(v.cx, v.cy)
  {
    Scales(v);
    ScaleExtent(v);
    var s, t := XScale(v), YScale(v);
    var ry := RadY(v);
    assert Ctg(v, 0.0, 0.0) == Point(v.cx - v.radX, v.cy + ry) by { CtgXForm(v, 0.0, 0.0); CtgYForm(v, 0.0, 0.0); }
    assert Ctg(v, v.width, v.height) == Point(v.cx + v.radX, v.cy - ry) by {
      CtgXForm(v, v.width, v.height);
      CtgYForm(v, v.width, v.height);
      DivExact(v.width, 2.0 * v.radX, s);
      DivExact(v.height, 2.0 * ry, t);
      assert v.width / s == 2.0 * v.radX;
    }
    assert Ctg(v, v.width / 2.0, v.height / 2.0) == Point(v.cx, v.cy) by {
      CtgXForm(v, v.width / 2.0, v.height / 2.0);
      CtgYForm(v, v.width / 2.0, v.height / 2.0);
      DivExact(v.width / 2.0, v.radX, s);
      DivExact(v.height / 2.0, ry, t);
      assert v.width / 2.0 / s == v.radX;
    }
  }

  /**
   * With aspect = width / height a length has the same canvas size on both
   * axes: the canvas row sgtc(h) above the row of graph y is graph y + h, the
   * row sgtc(h) below it is graph y - h.
   */
  lemma VerticalScale(v: View, sx: real, y: real, h: real)
    requires Positive(v) && Proportional(v)
    ensures Ctg(v, sx, GtcY(v, y) - Sgtc(v, h)).y == y + h
    ensures Ctg(v, sx, GtcY(v, y) + Sgtc(v, h)).y == y - h
  {
    Scales(v);
    ScalesAgree(v);
    var s := XScale(v);
    var a, b := v.cy + RadY(v) - y - h, v.cy + RadY(v) - y + h;
    assert GtcY(v, y) - Sgtc(v, h) == a * s && GtcY(v, y) + Sgtc(v, h) == b * s by {
      GtcYForm(v, y);
      assert Sgtc(v, h) == h * s;
    }
    assert Ctg(v, sx, a * s).y == y + h by {
      CtgYForm(v, sx, a * s);
      Cancel(s, a);
    }
    assert Ctg(v, sx, b * s).y == y - h by {
      CtgYForm(v, sx, b * s);
      Cancel(s, b);
    }
  }

  /**
   * With aspect = width / height, moving sgtc(w) pixels right and sgtc(h)
   * pixels down on the canvas moves w graph units right and h graph units down.
   */
  lemma CtgShift(v: View, sx: real, sy: real, w: real, h: real)
    requires Positive(v) && Proportional(v)
    ensures Ctg(v, sx + Sgtc(v, w), sy + Sgtc(v, h)) == Point(Ctg(v, sx, sy).x + w, Ctg(v, sx, sy).y - h)
  {
    Scales(v);
    ScalesAgree(v);
    var s := XScale(v);
    assert Sgtc(v, w) == w * s && Sgtc(v, h) == h * s;
    assert Ctg(v, sx + w * s, sy + h * s).x == Ctg(v, sx, sy).x + w by {
      CtgXForm(v, sx + w * s, sy + h * s);
      CtgXForm(v, sx, sy);
      ShiftDiv(sx, w, s);
    }
    assert Ctg(v, sx + w * s, sy + h * s).y == Ctg(v, sx, sy).y - h by {
      CtgYForm(v, sx + w * s, sy + h * s);
      CtgYForm(v, sx, sy);
      ShiftDiv(sy, h, s);
    }
  }

  lemma ShiftDiv(a: real, n: real, s: real)
    requires s != 0.0
    ensures (a + n * s) / s == a / s + n
  {
  }
}
