/**
 * The pan and zoom arithmetic of the interaction controller, as functions
 * from the viewport before an event to the viewport after it. The Graph class
 * applies them to its fields.
 */
module Interaction {
  import opened Transform

  /** Math.sign on a wheel delta. */
  function Sign(d: real): (s: int)
    ensures -1 <= s <= 1
    ensures s > 0 <==> d > 0.0
    ensures s < 0 <==> d < 0.0
  {
    if d > 0.0 then 1 else if d < 0.0 then -1 else 0
  }

  /** Math.pow(1.05, s) for s in {-1, 0, 1}, as exact rationals. */
  function ZoomFactor(s: int): (f: real)
    requires -1 <= s <= 1
    ensures f > 0.0
    ensures s > 0 ==> f > 1.0
    ensures s < 0 ==> f < 1.0
  {
    if s == 1 then 21.0 / 20.0 else if s == -1 then 20.0 / 21.0 else 1.0
  }

  /** Zooming one step in and one step out cancel. */
  lemma ZoomFactorInverse(s: int)
    requires -1 <= s <= 1
    ensures ZoomFactor(s) * ZoomFactor(-s) == 1.0
  {
  }

  /** The radius after one wheel event with vertical delta deltaY. */
  function ZoomRadius(radX: real, deltaY: real): real
  {
    radX * ZoomFactor(Sign(deltaY))
  }

  /**
   * onScroll: one multiplicative zoom step, with the centre re-solved so that
   * the cursor (mx, my) stays over the same graph point.
   */
  function Zoom(v: View, deltaY: real, mx: real, my: real): (z: View)
    requires NonZero(v)
    ensures NonZero(z)
    ensures z.aspect == v.aspect && z.width == v.width && z.height == v.height
    ensures z.radX == ZoomRadius(v.radX, deltaY)
  {
    var newRadX := v.radX * ZoomFactor(Sign(deltaY));
    var newRadY := newRadX / v.aspect;
    var radY := RadY(v);
    View((mx / v.width * 2.0) * (v.radX - newRadX) + v.cx + newRadX - v.radX,
         (2.0 - my / v.height * 2.0) * (radY - newRadY) + v.cy + newRadY - radY,
         newRadX, v.aspect, v.width, v.height)
  }

  /** dragMove: the centre moves by (-sctg(dx), +sctg(dy)); nothing else changes. */
  function Pan(v: View, dx: real, dy: real): (p: View)
    requires NonZero(v)
    ensures NonZero(p)
    ensures p.radX == v.radX && p.aspect == v.aspect && p.width == v.width && p.height == v.height
  {
    View(v.cx + -Sctg(v, dx), v.cy + Sctg(v, dy), v.radX, v.aspect, v.width, v.height)
  }

  /**
   * One zoom step multiplies the radius by 1.05 when scrolling down, divides
   * it by 1.05 when scrolling up, leaves it alone for a zero delta, and keeps
   * a positive radius positive.
   */
  lemma ZoomStep(radX: real, deltaY: real)
    ensures deltaY > 0.0 ==> ZoomRadius(radX, deltaY) == radX * 1.05
    ensures deltaY < 0.0 ==> ZoomRadius(radX, deltaY) * 1.05 == radX
    ensures deltaY == 0.0 ==> ZoomRadius(radX, deltaY) == radX
    ensures radX > 0.0 ==> ZoomRadius(radX, deltaY) > 0.0
  {
  }

  /** Zoom to cursor: the graph point under the cursor is the same before and after the step. */
  lemma ZoomKeepsCursorPoint(v: View, deltaY: real, mx: real, my: real)
    requires NonZero(v)
    ensures Ctg(Zoom(v, deltaY, mx, my), mx, my) == Ctg(v, mx, my)
  {
    var z := Zoom(v, deltaY, mx, my);
    var r, r' := v.radX, z.radX;
    var ry, ry' := RadY(v), RadY(z);
    assert ry' == r' / v.aspect;
    var m := mx / v.width * 2.0;
    var n := 2.0 - my / v.height * 2.0;
    assert Ctg(z, mx, my).x == Ctg(v, mx, my).x by {
      assert z.cx == m * (r - r') + v.cx + r' - r;
      assert Ctg(z, mx, my).x == m * r' + z.cx - r';
      assert Ctg(v, mx, my).x == m * r + v.cx - r;
      assert m * r' + m * (r - r') == m * r;
    }
    assert Ctg(z, mx, my).y == Ctg(v, mx, my).y by {
      var k := 1.0 - my / v.height;
      assert n == 2.0 * k;
      assert z.cy == n * (ry - ry') + v.cy + ry' - ry;
      assert Ctg(z, mx, my).y == k * ry' * 2.0 + z.cy - ry';
      assert Ctg(v, mx, my).y == k * ry * 2.0 + v.cy - ry;
      assert k * ry' * 2.0 + 2.0 * k * (ry - ry') == k * ry * 2.0;
    }
  }

  /** Zooming with the cursor at the canvas centre leaves the centre where it is. */
  lemma ZoomAtCentre(v: View, deltaY: real)
    requires NonZero(v)
    ensures Zoom(v, deltaY, v.width / 2.0, v.height / 2.0).cx == v.cx
    ensures Zoom(v, deltaY, v.width / 2.0, v.height / 2.0).cy == v.cy
  {
    var z := Zoom(v, deltaY, v.width / 2.0, v.height / 2.0);
    var r, r' := v.radX, z.radX;
    var ry, ry' := RadY(v), RadY(z);
    assert ry' == r' / v.aspect;
    assert v.width / 2.0 / v.width * 2.0 == 1.0;
    assert v.height / 2.0 / v.height * 2.0 == 1.0;
    assert z.cx == 1.0 * (r - r') + v.cx + r' - r;
    assert z.cy == (2.0 - 1.0) * (ry - ry') + v.cy + ry' - ry;
  }

  /** A wheel event with zero vertical delta changes nothing. */
  lemma ZoomWithoutDelta(v: View, mx: real, my: real)
    requires NonZero(v)
    ensures Zoom(v, 0.0, mx, my) == v
  {
    var z := Zoom(v, 0.0, mx, my);
    assert z.radX == v.radX;
    assert RadY(z) == RadY(v);
  }

  /** Two views with the same radius and size that show the same point at the same pixel share their centre. */
  lemma CtgDeterminesCentre(v: View, w: View, sx: real, sy: real)
    requires NonZero(v) && NonZero(w)
    requires v.radX == w.radX && v.aspect == w.aspect && v.width == w.width && v.height == w.height
    requires Ctg(v, sx, sy) == Ctg(w, sx, sy)
    ensures v == w
  {
    assert RadY(v) == RadY(w);
  }

  /** Scrolling one notch and then one notch back at the same cursor position restores the viewport exactly. */
  lemma ZoomUndo(v: View, deltaY: real, mx: real, my: real)
    requires NonZero(v)
    ensures Zoom(Zoom(v, deltaY, mx, my), -deltaY, mx, my) == v
  {
    var z := Zoom(v, deltaY, mx, my);
    var b := Zoom(z, -deltaY, mx, my);
    assert Sign(-deltaY) == -Sign(deltaY);
    ZoomFactorInverse(Sign(deltaY));
    assert b.radX == v.radX * (ZoomFactor(Sign(deltaY)) * ZoomFactor(-Sign(deltaY)));
    ZoomKeepsCursorPoint(v, deltaY, mx, my);
    ZoomKeepsCursorPoint(z, -deltaY, mx, my);
    CtgDeterminesCentre(b, v, mx, my);
  }

  /** Dragging by (dx, dy) and then by (-dx, -dy) restores the viewport exactly. */
  lemma PanUndo(v: View, dx: real, dy: real)
    requires NonZero(v)
    ensures Pan(Pan(v, dx, dy), -dx, -dy) == v
  {
    var p := Pan(v, dx, dy);
    assert Sctg(p, -dx) == -Sctg(v, dx);
    assert Sctg(p, -dy) == -Sctg(v, dy);
  }

  /**
   * Dragging moves the content with the pointer: the graph point that was
   * under canvas position (sx, sy) is under (sx + dx, sy + dy) afterwards.
   */
  lemma PanFollowsPointer(v: View, dx: real, dy: real, sx: real, sy: real)
    requires Positive(v) && Proportional(v)
    ensures Ctg(Pan(v, dx, dy), sx + dx, sy + dy) == Ctg(v, sx, sy)
  {
    var p := Pan(v, dx, dy);
    var ry := RadY(v);
    assert RadY(p) == ry;
    assert Ctg(p, sx + dx, sy + dy).x == Ctg(v, sx, sy).x by {
      assert (sx + dx) / v.width == sx / v.width + dx / v.width;
    }
    assert Ctg(p, sx + dx, sy + dy).y == Ctg(v, sx, sy).y by {
      assert ry == v.radX * v.height / v.width;
      assert dy / v.height * ry * 2.0 == Sctg(v, dy);
      assert (sy + dy) / v.height == sy / v.height + dy / v.height;
    }
  }

  /** The radius after n identical wheel events. */
  function ZoomedRadius(radX: real, deltaY: real, n: nat): (r: real)
    ensures radX > 0.0 ==> r > 0.0
  {
    if n == 0 then radX else ZoomRadius(ZoomedRadius(radX, deltaY, n - 1), deltaY)
  }

  /** Zooming out grows the radius at least linearly in the number of steps. */
  lemma {:induction false} ZoomOutGrowth(radX: real, deltaY: real, n: nat)
    requires radX > 0.0 && deltaY > 0.0
    ensures ZoomedRadius(radX, deltaY, n) >= radX * (1.0 + n as real / 20.0)
  {
    if n > 0 {
      ZoomOutGrowth(radX, deltaY, n - 1);
      var prev := ZoomedRadius(radX, deltaY, n - 1);
      assert ZoomedRadius(radX, deltaY, n) == prev * (21.0 / 20.0);
      assert prev * (21.0 / 20.0) >= radX * (1.0 + (n - 1) as real / 20.0) * (21.0 / 20.0);
      assert radX * (1.0 + (n - 1) as real / 20.0) * (21.0 / 20.0) >= radX * (1.0 + n as real / 20.0);
    }
  }

  /** Zooming in shrinks the radius at least like 1 / (1 + n/20), and it stays positive. */
  lemma {:induction false} ZoomInDecay(radX: real, deltaY: real, n: nat)
    requires radX > 0.0 && deltaY < 0.0
    ensures ZoomedRadius(radX, deltaY, n) * (1.0 + n as real / 20.0) <= radX
  {
    if n > 0 {
      ZoomInDecay(radX, deltaY, n - 1);
      var prev := ZoomedRadius(radX, deltaY, n - 1);
      var k := (n - 1) as real;
      assert ZoomedRadius(radX, deltaY, n) == prev * (20.0 / 21.0);
      assert prev > 0.0;
      assert prev * (20.0 / 21.0) * (1.0 + (k + 1.0) / 20.0) == prev * ((21.0 + k) / 21.0);
      assert prev * ((21.0 + k) / 21.0) <= prev * ((20.0 + k) / 20.0);
      assert prev * ((20.0 + k) / 20.0) == prev * (1.0 + k / 20.0);
    }
  }

  /** Zoom has no maximum: enough steps out exceed any bound. */
  lemma NoMaximumRadius(radX: real, deltaY: real, bound: real)
    requires radX > 0.0 && deltaY > 0.0
    ensures exists n: nat :: ZoomedRadius(radX, deltaY, n) > bound
  {
    var q := if bound > 0.0 then bound / radX * 20.0 else 0.0;
    var n: nat := q.Floor + 1;
    ZoomOutGrowth(radX, deltaY, n);
    assert n as real > q;
    if bound > 0.0 {
      assert radX * (n as real / 20.0) > radX * (q / 20.0) == bound;
    }
    assert ZoomedRadius(radX, deltaY, n) > bound;
  }

  /** Zoom has no minimum: enough steps in get below any positive radius, without reaching zero. */
  lemma NoMinimumRadius(radX: real, deltaY: real, epsilon: real)
    requires radX > 0.0 && deltaY < 0.0 && epsilon > 0.0
    ensures exists n: nat :: 0.0 < ZoomedRadius(radX, deltaY, n) < epsilon
  {
    var q := radX / epsilon * 20.0;
    var n: nat := q.Floor + 1;
    ZoomInDecay(radX, deltaY, n);
    var r := ZoomedRadius(radX, deltaY, n);
    var g := 1.0 + n as real / 20.0;
    assert n as real > q;
    StepsEnough(n as real, radX, epsilon);
    BelowByFactor(r, g, radX, epsilon);
  }

  lemma StepsEnough(n: real, a: real, e: real)
    requires e > 0.0 && a > 0.0 && n > a / e * 20.0
    ensures a < (1.0 + n / 20.0) * e
  {
    var m := n / 20.0;
    assert m > a / e;
    assert (1.0 + m) * e == e + m * e;
    assert m * e - a / e * e == (m - a / e) * e;
    assert (m - a / e) * e > 0.0;
    assert a / e * e == a;
    assert e + m * e > a;
    assert (1.0 + n / 20.0) * e == e + m * e;
  }

  lemma BelowByFactor(r: real, g: real, a: real, e: real)
    requires r > 0.0 && g > 0.0 && r * g <= a && a < g * e
    ensures r < e
  {
    assert r * g < e * g;
  }
}
