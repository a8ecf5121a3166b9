/**
 * The 2-D drawing context as the graph sees it: an abstract trace of the calls
 * made on it, in the order they are made. Property writes (`ctx.fillStyle = c`)
 * are entries of the trace too, so the style in force for a stroke or fill is
 * the last write before it.
 */
module Canvas {
  import opened Wrappers

  /** A value written to a context property or passed to a call the graph does not interpret. */
  datatype Value = Str(s: string) | Num(n: real) | FontPx(px: int)

  /** An image handed to drawImage; the model never looks inside it. */
  datatype Image = Image(id: nat)

  /** One call on the context, with pixel-space arguments. */
  datatype Cmd =
    | SetProp(name: string, value: Value)
    | BeginPath
    | Stroke
    | Fill
    | MoveTo(x: real, y: real)
    | LineTo(x: real, y: real)
    | Arc(x: real, y: real, radius: real, startAngle: real, endAngle: real, anticlockwise: bool)
    | ArcTo(x1: real, y1: real, x2: real, y2: real, radius: real)
    | BezierCurveTo(cp1x: real, cp1y: real, cp2x: real, cp2y: real, x: real, y: real)
    | QuadraticCurveTo(cpx: real, cpy: real, x: real, y: real)
    | Ellipse(x: real, y: real, radiusX: real, radiusY: real, rotation: real,
              startAngle: real, endAngle: real, anticlockwise: bool)
    | ClearRect(x: real, y: real, w: real, h: real)
    | FillRect(x: real, y: real, w: real, h: real)
    | StrokeRect(x: real, y: real, w: real, h: real)
    | Rect(x: real, y: real, w: real, h: real)
    | FillText(text: string, x: real, y: real, maxWidth: Option<real>)
    | StrokeText(text: string, x: real, y: real, maxWidth: Option<real>)
    | DrawImage(image: Image, dx: real, dy: real, dw: real, dh: real,
                sx: real, sy: real, sw: real, sh: real)
    | Other(name: string, args: seq<Value>)
    /** Assigning canvas.width and canvas.height: resizes the backing surface and clears it. */
    | ResizeSurface(width: real, height: real)

  /** A rendering context; `log` is everything that has been issued on it. */
  class Context {
    var log: seq<Cmd>

    constructor ()
      ensures log == []
    {
      log := [];
    }

    method Issue(c: Cmd)
      modifies this
      ensures log == old(log) + [c]
    {
      log := log + [c];
    }
  }

  /** The value of the last write to property name in log: the value in force at the end of log. */
  function LastWrite(log: seq<Cmd>, name: string): Option<Value> {
    if log == [] then None
    else if log[|log| - 1].SetProp? && log[|log| - 1].name == name then Some(log[|log| - 1].value)
    else LastWrite(log[..|log| - 1], name)
  }

  /** A call that paints with the stroke style in force. */
  predicate UsesStroke(c: Cmd) {
    c.Stroke? || c.StrokeRect? || c.StrokeText?
  }

  /** A call that paints with the fill style in force. */
  predicate UsesFill(c: Cmd) {
    c.Fill? || c.FillRect? || c.FillText?
  }

  /** Calls that do not write property name leave the value in force as it was. */
  lemma {:induction false} LastWriteKept(head: seq<Cmd>, tail: seq<Cmd>, name: string)
    requires forall i :: 0 <= i < |tail| ==> !(tail[i].SetProp? && tail[i].name == name)
    ensures LastWrite(head + tail, name) == LastWrite(head, name)
    decreases |tail|
  {
    if tail == [] {
      assert head + tail == head;
    } else {
      var t := tail[..|tail| - 1];
      assert (head + tail)[|head + tail| - 1] == tail[|tail| - 1];
      assert (head + tail)[..|head + tail| - 1] == head + t;
      LastWriteKept(head, t, name);
    }
  }

  /** Appending a to a log and then b appends a + b: the log a method leaves after two steps. */
  lemma Appended<T>(start: seq<T>, a: seq<T>, b: seq<T>)
    ensures start + a + b == start + (a + b)
  {
  }
}
