/**
 * GraphWrapper's coordinate-remapping adapter. A custom drawer issues calls in
 * graph units on a wrapped context; the adapter rewrites the fourteen
 * geometry-bearing calls into pixel units (points through gtc, lengths
 * through sgtc, vertical extents negated) and lets everything else through,
 * except writes to those fourteen names, which it drops.
 */
module Adapter {
  import opened Wrappers
  import opened Transform
  import C = Canvas

  /** The names the adapter rewrites on read and protects on write. */
  const Affected: seq<string> := [
    "arc", "arcTo", "bezierCurveTo", "clearRect", "drawImage", "ellipse", "fillRect",
    "fillText", "lineTo", "moveTo", "quadraticCurveTo", "rect", "strokeRect", "strokeText"
  ]

  /**
   * A call on one of the fourteen rewritten names, with its arguments in graph
   * units. Omitted optional arguments take the adapter's defaults:
   * anticlockwise is false, and a missing maxWidth is None.
   */
  datatype GraphCall =
    | Arc(x: real, y: real, radius: real, startAngle: real, endAngle: real, anticlockwise: bool)
    | ArcTo(x1: real, y1: real, x2: real, y2: real, radius: real)
    | BezierCurveTo(cp1x: real, cp1y: real, cp2x: real, cp2y: real, x: real, y: real)
    | ClearRect(x: real, y: real, w: real, h: real)
    | DrawImage(image: C.Image, dx: real, dy: real, dw: real, dh: real,
                sx: real, sy: real, sw: real, sh: real)
    | Ellipse(x: real, y: real, radiusX: real, radiusY: real, rotation: real,
              startAngle: real, endAngle: real, anticlockwise: bool)
    | FillRect(x: real, y: real, w: real, h: real)
    | FillText(text: string, x: real, y: real, maxWidth: Option<real>)
    | LineTo(x: real, y: real)
    | MoveTo(x: real, y: real)
    | QuadraticCurveTo(cpx: real, cpy: real, x: real, y: real)
    | Rect(x: real, y: real, w: real, h: real)
    | StrokeRect(x: real, y: real, w: real, h: real)
    | StrokeText(text: string, x: real, y: real, maxWidth: Option<real>)

  /** The property name a call is made through. */
  function Name(c: GraphCall): string {
    match c
    case Arc(_, _, _, _, _, _) => "arc"
    case ArcTo(_, _, _, _, _) => "arcTo"
    case BezierCurveTo(_, _, _, _, _, _) => "bezierCurveTo"
    case ClearRect(_, _, _, _) => "clearRect"
    case DrawImage(_, _, _, _, _, _, _, _, _) => "drawImage"
    case Ellipse(_, _, _, _, _, _, _, _) => "ellipse"
    case FillRect(_, _, _, _) => "fillRect"
    case FillText(_, _, _, _) => "fillText"
    case LineTo(_, _) => "lineTo"
    case MoveTo(_, _) => "moveTo"
    case QuadraticCurveTo(_, _, _, _) => "quadraticCurveTo"
    case Rect(_, _, _, _) => "rect"
    case StrokeRect(_, _, _, _) => "strokeRect"
    case StrokeText(_, _, _, _) => "strokeText"
  }

  /** What the get trap hands back for a property: a remapping function, or the context's own member. */
  datatype Binding = Remapped | Target

  /** The get trap's dispatch on the property name. */
  function Get(prop: string): Binding {
    if prop == "arc" then Remapped
    else if prop == "arcTo" then Remapped
    else if prop == "bezierCurveTo" then Remapped
    else if prop == "clearRect" then Remapped
    else if prop == "drawImage" then Remapped
    else if prop == "ellipse" then Remapped
    else if prop == "fillRect" then Remapped
    else if prop == "fillText" then Remapped
    else if prop == "lineTo" then Remapped
    else if prop == "moveTo" then Remapped
    else if prop == "quadraticCurveTo" then Remapped
    else if prop == "rect" then Remapped
    else if prop == "strokeRect" then Remapped
    else if prop == "strokeText" then Remapped
    else Target
  }

  /** The context call a remapped call becomes: points through gtc, lengths through sgtc, heights negated. */
  function RemapCall(v: View, c: GraphCall): C.Cmd
    requires v.radX != 0.0 && v.aspect != 0.0
  {
    match c
    case Arc(x, y, radius, startAngle, endAngle, anticlockwise) =>
      var p := Gtc(v, x, y);
      C.Arc(p.x as real, p.y as real, Sgtc(v, radius), startAngle, endAngle, anticlockwise)
    case ArcTo(x1, y1, x2, y2, radius) =>
      var p1, p2 := Gtc(v, x1, y1), Gtc(v, x2, y2);
      C.ArcTo(p1.x as real, p1.y as real, p2.x as real, p2.y as real, Sgtc(v, radius))
    case BezierCurveTo(cp1x, cp1y, cp2x, cp2y, x, y) =>
      var p1, p2, p := Gtc(v, cp1x, cp1y), Gtc(v, cp2x, cp2y), Gtc(v, x, y);
      C.BezierCurveTo(p1.x as real, p1.y as real, p2.x as real, p2.y as real, p.x as real, p.y as real)
    case ClearRect(x, y, w, h) =>
      var p := Gtc(v, x, y);
      C.ClearRect(p.x as real, p.y as real, Sgtc(v, w), -Sgtc(v, h))
    case DrawImage(image, dx, dy, dw, dh, sx, sy, sw, sh) =>
      var d, s := Gtc(v, dx, dy), Gtc(v, sx, sy);
      C.DrawImage(image, d.x as real, d.y as real, Sgtc(v, dw), -Sgtc(v, dh),
                  s.x as real, s.y as real, Sgtc(v, sw), -Sgtc(v, sh))
    case Ellipse(x, y, radiusX, radiusY, rotation, startAngle, endAngle, anticlockwise) =>
      var p := Gtc(v, x, y);
      C.Ellipse(p.x as real, p.y as real, Sgtc(v, radiusX), Sgtc(v, radiusY), rotation,
                startAngle, endAngle, anticlockwise)
    case FillRect(x, y, w, h) =>
      var p := Gtc(v, x, y);
      C.FillRect(p.x as real, p.y as real, Sgtc(v, w), -Sgtc(v, h))
    case FillText(text, x, y, maxWidth) =>
      var p := Gtc(v, x, y);
      C.FillText(text, p.x as real, p.y as real,
                 if maxWidth.None? then None else Some(Sgtc(v, maxWidth.value)))
    case LineTo(x, y) =>
      var p := Gtc(v, x, y);
      C.LineTo(p.x as real, p.y as real)
    case MoveTo(x, y) =>
      var p := Gtc(v, x, y);
      C.MoveTo(p.x as real, p.y as real)
    case QuadraticCurveTo(cpx, cpy, x, y) =>
      var cp, p := Gtc(v, cpx, cpy), Gtc(v, x, y);
      C.QuadraticCurveTo(cp.x as real, cp.y as real, p.x as real, p.y as real)
    case Rect(x, y, w, h) =>
      var p := Gtc(v, x, y);
      C.Rect(p.x as real, p.y as real, Sgtc(v, w), -Sgtc(v, h))
    case StrokeRect(x, y, w, h) =>
      var p := Gtc(v, x, y);
      C.StrokeRect(p.x as real, p.y as real, Sgtc(v, w), -Sgtc(v, h))
    case StrokeText(text, x, y, maxWidth) =>
      var p := Gtc(v, x, y);
      C.StrokeText(text, p.x as real, p.y as real,
                   if maxWidth.None? then None else Some(Sgtc(v, maxWidth.value)))
  }

  /** The set trap: a write reaches the context unless the name is one of the fourteen. */
  function SetTrap(name: string, value: C.Value): seq<C.Cmd> {
    if name !in Affected then [C.SetProp(name, value)] else []
  }

  /** A member name the adapter passes through. */
  type PlainName = s: string | s !in Affected witness "stroke"

  /** One thing a custom drawer does with the wrapped context. */
  datatype Request =
    | Call(call: GraphCall)
    | Invoke(member: PlainName, args: seq<C.Value>)
    | Assign(prop: string, value: C.Value)

  /** What one request does to the underlying context. */
  function RequestCmds(v: View, r: Request): seq<C.Cmd>
    requires v.radX != 0.0 && v.aspect != 0.0
  {
    match r
    case Call(c) => [RemapCall(v, c)]
    case Invoke(name, args) => [C.Other(name, args)]
    case Assign(name, value) => SetTrap(name, value)
  }

  /** What a custom drawer's requests, in order, do to the underlying context. */
  function ScriptCmds(v: View, script: seq<Request>): seq<C.Cmd>
    requires v.radX != 0.0 && v.aspect != 0.0
  {
    if script == [] then []
    else ScriptCmds(v, script[..|script| - 1]) + RequestCmds(v, script[|script| - 1])
  }

  /** The set trap, applied to the context. */
  method WrapperSet(ctx: C.Context, name: string, value: C.Value)
    modifies ctx
    ensures ctx.log == old(ctx.log) + SetTrap(name, value)
  {
    if name !in Affected {
      ctx.Issue(C.SetProp(name, value));
    }
  }

  /** One request on the wrapped context: a remapped call, a call passed through, or a write through the set trap. */
  method Perform(ctx: C.Context, v: View, r: Request)
    requires v.radX != 0.0 && v.aspect != 0.0
    modifies ctx
    ensures ctx.log == old(ctx.log) + RequestCmds(v, r)
  {
    match r {
      case Call(c) => ctx.Issue(RemapCall(v, c));
      case Invoke(name, args) => ctx.Issue(C.Other(name, args));
      case Assign(name, value) => WrapperSet(ctx, name, value);
    }
  }

  /** GraphWrapper.draw: run the drawer against the wrapped context. */
  method DrawWrapped(ctx: C.Context, v: View, script: seq<Request>)
    requires v.radX != 0.0 && v.aspect != 0.0
    modifies ctx
    ensures ctx.log == old(ctx.log) + ScriptCmds(v, script)
  {
    var i := 0;
    while i < |script|
      invariant 0 <= i <= |script|
      invariant ctx.log == old(ctx.log) + ScriptCmds(v, script[..i])
    {
      assert script[..i + 1][..i] == script[..i];
      C.Appended(old(ctx.log), ScriptCmds(v, script[..i]), RequestCmds(v, script[i]));
      Perform(ctx, v, script[i]);
      i := i + 1;
    }
    assert script[..i] == script;
  }

  /** The two lists agree: a name is remapped on read exactly when writes to it are dropped. */
  lemma GetAgreesWithSet(prop: string, value: C.Value)
    ensures Get(prop) == Remapped <==> prop in Affected
    ensures SetTrap(prop, value) == [] <==> Get(prop) == Remapped
  {
  }

  /** Every call in graph units is made through a remapped name. */
  lemma CallsAreRemapped(c: GraphCall)
    ensures Get(Name(c)) == Remapped
  {
  }

  /** The drawer never gets a write to one of the fourteen names through to the context. */
  lemma {:induction false} ScriptKeepsAffectedNames(v: View, script: seq<Request>)
    requires v.radX != 0.0 && v.aspect != 0.0
    ensures forall cmd :: cmd in ScriptCmds(v, script) && cmd.SetProp? ==> cmd.name !in Affected
  {
    if script != [] {
      ScriptKeepsAffectedNames(v, script[..|script| - 1]);
    }
  }

  /** A pixel position that gives back graph point (x, y) up to gtc's flooring. */
  predicate Near(v: View, x: real, y: real, px: real, py: real)
    requires Positive(v)
  {
    var q := Ctg(v, px, py);
    x - 2.0 * v.radX / v.width < q.x <= x && y <= q.y < y + 2.0 * RadY(v) / v.height
  }

  /**
   * cmd is the context call c stands for: the same call, every point within a
   * pixel of c's point once converted back with ctg, every length giving back
   * c's length through sctg (negated for vertical extents), and angles,
   * rotation, direction, text and image unchanged.
   */
  predicate Recovers(v: View, c: GraphCall, cmd: C.Cmd)
    requires Positive(v)
  {
    match c
    case Arc(x, y, radius, startAngle, endAngle, anticlockwise) =>
      cmd.Arc? && Near(v, x, y, cmd.x, cmd.y) && Sctg(v, cmd.radius) == radius &&
      cmd.startAngle == startAngle && cmd.endAngle == endAngle && cmd.anticlockwise == anticlockwise
    case ArcTo(x1, y1, x2, y2, radius) =>
      cmd.ArcTo? && Near(v, x1, y1, cmd.x1, cmd.y1) && Near(v, x2, y2, cmd.x2, cmd.y2) &&
      Sctg(v, cmd.radius) == radius
    case BezierCurveTo(cp1x, cp1y, cp2x, cp2y, x, y) =>
      cmd.BezierCurveTo? && Near(v, cp1x, cp1y, cmd.cp1x, cmd.cp1y) &&
      Near(v, cp2x, cp2y, cmd.cp2x, cmd.cp2y) && Near(v, x, y, cmd.x, cmd.y)
    case ClearRect(x, y, w, h) =>
      cmd.ClearRect? && Near(v, x, y, cmd.x, cmd.y) && Sctg(v, cmd.w) == w && Sctg(v, cmd.h) == -h
    case DrawImage(image, dx, dy, dw, dh, sx, sy, sw, sh) =>
      cmd.DrawImage? && cmd.image == image &&
      Near(v, dx, dy, cmd.dx, cmd.dy) && Sctg(v, cmd.dw) == dw && Sctg(v, cmd.dh) == -dh &&
      Near(v, sx, sy, cmd.sx, cmd.sy) && Sctg(v, cmd.sw) == sw && Sctg(v, cmd.sh) == -sh
    case Ellipse(x, y, radiusX, radiusY, rotation, startAngle, endAngle, anticlockwise) =>
      cmd.Ellipse? && Near(v, x, y, cmd.x, cmd.y) &&
      Sctg(v, cmd.radiusX) == radiusX && Sctg(v, cmd.radiusY) == radiusY &&
      cmd.rotation == rotation && cmd.startAngle == startAngle && cmd.endAngle == endAngle &&
      cmd.anticlockwise == anticlockwise
    case FillRect(x, y, w, h) =>
      cmd.FillRect? && Near(v, x, y, cmd.x, cmd.y) && Sctg(v, cmd.w) == w && Sctg(v, cmd.h) == -h
    case FillText(text, x, y, maxWidth) =>
      cmd.FillText? && cmd.text == text && Near(v, x, y, cmd.x, cmd.y) &&
      cmd.maxWidth.Some? == maxWidth.Some? &&
      (maxWidth.Some? ==> Sctg(v, cmd.maxWidth.value) == maxWidth.value)
    case LineTo(x, y) =>
      cmd.LineTo? && Near(v, x, y, cmd.x, cmd.y)
    case MoveTo(x, y) =>
      cmd.MoveTo? && Near(v, x, y, cmd.x, cmd.y)
    case QuadraticCurveTo(cpx, cpy, x, y) =>
      cmd.QuadraticCurveTo? && Near(v, cpx, cpy, cmd.cpx, cmd.cpy) && Near(v, x, y, cmd.x, cmd.y)
    case Rect(x, y, w, h) =>
      cmd.Rect? && Near(v, x, y, cmd.x, cmd.y) && Sctg(v, cmd.w) == w && Sctg(v, cmd.h) == -h
    case StrokeRect(x, y, w, h) =>
      cmd.StrokeRect? && Near(v, x, y, cmd.x, cmd.y) && Sctg(v, cmd.w) == w && Sctg(v, cmd.h) == -h
    case StrokeText(text, x, y, maxWidth) =>
      cmd.StrokeText? && cmd.text == text && Near(v, x, y, cmd.x, cmd.y) &&
      cmd.maxWidth.Some? == maxWidth.Some? &&
      (maxWidth.Some? ==> Sctg(v, cmd.maxWidth.value) == maxWidth.value)
  }

  /** gtc's pixel for (x, y) is Near (x, y). */
  lemma PixelNear(v: View, x: real, y: real)
    requires Positive(v)
    ensures Near(v, x, y, Gtc(v, x, y).x as real, Gtc(v, x, y).y as real)
  {
    PixelRoundTrip(v, x, y);
  }

  /** sctg gives back a length from its sgtc, and a height from its negated sgtc. */
  lemma LengthBack(v: View, n: real)
    requires Positive(v)
    ensures Sctg(v, Sgtc(v, n)) == n && Sctg(v, -Sgtc(v, n)) == -n
  {
    ScalarRoundTrip(v, n);
    ScalarRoundTrip(v, -n);
  }

  /** Every remapped call can be read back as the graph-space call it came from. */
  lemma RemapRecovers(v: View, c: GraphCall)
    requires Positive(v)
    ensures Recovers(v, c, RemapCall(v, c))
  {
    match c
    case Arc(x, y, radius, _, _, _) =>
      PixelNear(v, x, y); LengthBack(v, radius);
    case ArcTo(x1, y1, x2, y2, radius) =>
      PixelNear(v, x1, y1); PixelNear(v, x2, y2); LengthBack(v, radius);
    case BezierCurveTo(cp1x, cp1y, cp2x, cp2y, x, y) =>
      PixelNear(v, cp1x, cp1y); PixelNear(v, cp2x, cp2y); PixelNear(v, x, y);
    case ClearRect(x, y, w, h) =>
      PixelNear(v, x, y); LengthBack(v, w); LengthBack(v, h);
    case DrawImage(_, dx, dy, dw, dh, sx, sy, sw, sh) =>
      PixelNear(v, dx, dy); LengthBack(v, dw); LengthBack(v, dh);
      PixelNear(v, sx, sy); LengthBack(v, sw); LengthBack(v, sh);
    case Ellipse(x, y, radiusX, radiusY, _, _, _, _) =>
      PixelNear(v, x, y); LengthBack(v, radiusX); LengthBack(v, radiusY);
    case FillRect(x, y, w, h) =>
      PixelNear(v, x, y); LengthBack(v, w); LengthBack(v, h);
    case FillText(_, x, y, maxWidth) =>
      PixelNear(v, x, y);
      if maxWidth.Some? { LengthBack(v, maxWidth.value); }
    case LineTo(x, y) =>
      PixelNear(v, x, y);
    case MoveTo(x, y) =>
      PixelNear(v, x, y);
    case QuadraticCurveTo(cpx, cpy, x, y) =>
      PixelNear(v, cpx, cpy); PixelNear(v, x, y);
    case Rect(x, y, w, h) =>
      PixelNear(v, x, y); LengthBack(v, w); LengthBack(v, h);
    case StrokeRect(x, y, w, h) =>
      PixelNear(v, x, y); LengthBack(v, w); LengthBack(v, h);
    case StrokeText(_, x, y, maxWidth) =>
      PixelNear(v, x, y);
      if maxWidth.Some? { LengthBack(v, maxWidth.value); }
  }
}
