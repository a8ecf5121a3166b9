# canvas-graph in Dafny

A model of `src/canvas-graph.js`, a small library that draws a pannable,
zoomable 2-D graph on an HTML canvas, with proofs of what its viewport
arithmetic, its event handlers and its drawing calls do.

The model has eight modules:

- `Wrappers`: the `Option` type.
- `Canvas`: the 2-D context as a command trace. A `Context` object keeps
  the log of calls and property writes made on it (`Cmd`), and every
  drawing method appends to that log. The rasterizer itself is not
  modelled.
- `Transform`: the viewport snapshot (`View`: centre, `radX`, aspect,
  width, height) and the conversions between graph space (y up) and
  canvas space (pixels, y down): `gtc` (floored to whole pixels), `sgtc`,
  `ctg`, `sctg` and the derived `radY`. It proves:
  - the exact round trips;
  - the one-pixel round trip through the floor;
  - the mapping of the corners.
- `Interaction`: the viewport change made by one drag move (`Pan`) and one
  wheel step (`Zoom`), as pure functions. It proves:
  - zoom-to-cursor keeps the graph point under the cursor;
  - pan and zoom can be undone;
  - the zoom radius has no bound either way.
- `Grid`: `drawLines`, the grey unit grid and the two axes, as a method
  with loops, proved against the function that lists its calls.
- `Adapter`: the `GraphWrapper` Proxy. Its `get` trap rewrites the
  fourteen geometry calls into pixel calls, and its `set` trap drops writes
  to those names. A custom drawer is modelled as the sequence of requests
  it makes on the wrapped context.
- `Primitives`:
  - `StrokeStyle` and `FillStyle`;
  - the drawers `GraphLine`, `GraphCircle`, `GraphRect`, `GraphFunc`,
    `GraphText` and `GraphWrapper`, each as a method proved against the
    function giving its calls;
  - the sampling loop of `GraphFunc`.
- `CanvasGraph`: the `Graph` class, with:
  - its fields;
  - the option merge done by its constructor;
  - `drawGraph`;
  - the drag handlers and `onScroll`;
  - `resize`;
  - the `Add*` methods and the `drawGrid` accessors.

  `center` is a two-element array that the handlers update in place.

Numbers are modelled as mathematical reals. `Math.pow(1.05, ±1)` is the
exact rational 21/20 or 20/21, and `Math.floor` is `.Floor`.

Two behaviours of the code are worth knowing when reading the model:

- `resize` (src/canvas-graph.js:210-222) recomputes the aspect ratio and
  resizes the canvas surface, which clears it, but it does not redraw. After
  a resize event the canvas stays blank until the next redraw; only the
  first resize, inside the constructor, is followed by `drawGraph`.
- `GraphRect`'s doc comment (src/canvas-graph.js:453) calls `(x, y)` the
  bottom-left corner. The code passes `sgtc(h)` without negating it, unlike
  the wrapper's `fillRect`, so the rectangle hangs DOWN from `(x, y)`: that
  point is its top-left corner in graph space
  (`Primitives.RectHangsFromCorner`). The model draws rectangles the way
  the code does.

## Model

| member | source | states |
|---|---|---|
| Canvas.LastWrite | src/canvas-graph.js:339-360 | the value of a context property in force after a log: its last write, if any |
| Canvas.LastWriteKept | src/canvas-graph.js:339-360 | calls that do not write a property leave its value in force unchanged |
| Transform.RadY | src/canvas-graph.js:323 | radY is positive whenever radX, aspect and the canvas size are |
| Transform.RadYAspect | src/canvas-graph.js:323 | radY times the aspect ratio is radX, so radY is non-zero when radX is |
| Transform.Gtc | src/canvas-graph.js:244-249 | the pixel gtc returns is the one containing the exact canvas point: each coordinate is at most the un-floored value and within one of it |
| Transform.Scales | src/canvas-graph.js:255-257 | pixels per graph unit across and down are non-zero, and positive on a positive viewport |
| Transform.ScalesAgree | src/canvas-graph.js:220 | once aspect = width / height, the vertical scale equals the horizontal one, so sgtc serves both axes |
| Transform.ScalarRoundTrip | src/canvas-graph.js:255-257 | sctg(sgtc(n)) == n and sgtc(sctg(n)) == n exactly |
| Transform.PointInverse | src/canvas-graph.js:244-249 | ctg is the exact two-sided inverse of the un-floored gtc |
| Transform.InverseX | src/canvas-graph.js:246 | the x parts of ctg and un-floored gtc invert each other |
| Transform.InverseY | src/canvas-graph.js:247 | the y parts of ctg and un-floored gtc invert each other |
| Transform.CtgAfterGtcY | src/canvas-graph.js:264-269 | ctg recovers graph y from its un-floored canvas y |
| Transform.GtcAfterCtgY | src/canvas-graph.js:244-249 | un-floored gtc recovers canvas y from its ctg |
| Transform.PixelRoundTrip | src/canvas-graph.js:244-249 | ctg of gtc's floored pixel gives x back in (x - 2 radX / width, x] and y back in [y, y + 2 radY / height) |
| Transform.PixelRoundTripX | src/canvas-graph.js:248 | flooring the canvas x loses less than one pixel width of graph x, never adding any |
| Transform.PixelRoundTripY | src/canvas-graph.js:248 | flooring the canvas y loses less than one pixel height of graph y, always upward |
| Transform.CornersToCanvas | src/canvas-graph.js:244-249 | the visible top-left corner maps to pixel (0, 0) and the bottom-right corner to (floor width, floor height) |
| Transform.CanvasToCorners | src/canvas-graph.js:264-269 | ctg maps (0, 0), (width, height) and the canvas centre to the visible corners and to the viewport centre |
| Transform.VerticalScale | src/canvas-graph.js:255-257 | on a proportional viewport, moving sgtc(h) pixels up or down the canvas moves h graph units |
| Transform.CtgShift | src/canvas-graph.js:264-269 | shifting a canvas point by (sgtc w, sgtc h) shifts its graph point by (w, -h) |
| Transform.GtcX | src/canvas-graph.js:246 | the un-floored canvas x of graph x: its offset from the left edge, x - (cx - radX), in units of 2 radX / width |
| Transform.GtcY | src/canvas-graph.js:247 | the un-floored canvas y of graph y: height times one minus its offset from the bottom edge, y - (cy - radY), in units of 2 radY, so larger y is higher up |
| Transform.Sgtc | src/canvas-graph.js:255-257 | a graph length in pixels: n / radX / 2 * width |
| Transform.Ctg | src/canvas-graph.js:264-269 | the graph point at canvas pixel (sx, sy), x growing rightwards from cx - radX and y growing upwards from cy - radY |
| Transform.Sctg | src/canvas-graph.js:275-277 | a pixel length in graph units: n / width * radX * 2 |
| Interaction.Sign | src/canvas-graph.js:163 | Math.sign: -1, 0 or 1, positive exactly for positive deltas and negative exactly for negative ones |
| Interaction.ZoomFactor | src/canvas-graph.js:163 | 1.05 to the power of the sign: positive, above 1 for zooming out and below 1 for zooming in |
| Interaction.ZoomFactorInverse | src/canvas-graph.js:163 | a step out and a step in multiply to 1 |
| Interaction.Zoom | src/canvas-graph.js:159-180 | a wheel step changes only the centre and radX: the new radX is the zoomed one and the divisors stay non-zero |
| Interaction.Pan | src/canvas-graph.js:140-151 | a drag move changes only the centre; radius, aspect and size are untouched |
| Interaction.ZoomStep | src/canvas-graph.js:163 | radX grows by 1.05 when deltaY > 0, shrinks by 1.05 when deltaY < 0, stays put when 0, and stays positive |
| Interaction.ZoomKeepsCursorPoint | src/canvas-graph.js:159-176 | ctg(mx, my) after the zoom step equals ctg(mx, my) before it, on both axes |
| Interaction.ZoomAtCentre | src/canvas-graph.js:171-175 | zooming with the cursor at the canvas centre leaves the centre unchanged |
| Interaction.ZoomWithoutDelta | src/canvas-graph.js:163-176 | a wheel event with deltaY = 0 leaves the viewport unchanged |
| Interaction.CtgDeterminesCentre | src/canvas-graph.js:264-269 | two viewports of equal radius and size that agree on ctg at one pixel have the same centre |
| Interaction.ZoomUndo | src/canvas-graph.js:159-176 | one notch and then one notch back at the same cursor restore the viewport exactly |
| Interaction.PanUndo | src/canvas-graph.js:140-151 | a drag by (dx, dy) and then by (-dx, -dy) restores the centre exactly |
| Interaction.PanFollowsPointer | src/canvas-graph.js:143-148 | after a drag by (dx, dy), the graph point that was under pixel (sx, sy) is under pixel (sx + dx, sy + dy) |
| Interaction.ZoomedRadius | src/canvas-graph.js:163 | radX after n identical wheel steps stays positive |
| Interaction.ZoomOutGrowth | src/canvas-graph.js:163 | n steps out multiply radX by at least 1 + n/20 |
| Interaction.ZoomInDecay | src/canvas-graph.js:163 | n steps in divide radX by at least 1 + n/20 |
| Interaction.NoMaximumRadius | src/canvas-graph.js:163 | enough steps out exceed any bound: radX has no maximum |
| Interaction.NoMinimumRadius | src/canvas-graph.js:163 | enough steps in go below any positive epsilon without reaching zero: radX has no minimum |
| Grid.Range | src/canvas-graph.js:103 | the integers a loop from lo to hi visits: hi - lo + 1 of them, none if hi < lo |
| Grid.RangeAt | src/canvas-graph.js:103 | the loop's i-th value is lo + i |
| Grid.InRange | src/canvas-graph.js:103 | k is visited exactly when lo <= k <= hi |
| Grid.GridLines | src/canvas-graph.js:103-108 | the grid lines from lo to hi issue four calls per visited integer |
| Grid.GridPositions | src/canvas-graph.js:101-111 | vertical lines sit at exactly the integers k with floor(cx - radX) <= k <= cx + radX, horizontal ones likewise with cy and radY |
| Grid.GridCoversWidth | src/canvas-graph.js:101-108 | there is at least one vertical line; the first lies less than one unit left of the left edge, the others inside the visible range, and the last less than one unit left of the right edge |
| Grid.AxisOnGridLine | src/canvas-graph.js:120-131 | an axis drawn because 0 is in view always lies on a grid line |
| Grid.GridLineAt | src/canvas-graph.js:103-116 | calls 4i to 4i + 3 of a grid loop are the line at the loop's i-th integer |
| Grid.VerticalLinesAt | src/canvas-graph.js:101-108 | the vertical loop issues one four-call line per x position, in order |
| Grid.HorizontalLinesAt | src/canvas-graph.js:109-116 | the horizontal loop issues one four-call line per y position, in order |
| Grid.DrawLines | src/canvas-graph.js:95-132 | drawLines issues exactly the grey grid and then the axes that are in view |
| Grid.DrawLightGrid | src/canvas-graph.js:99-116 | sets grey width-1 strokes, then draws the vertical lines left to right and the horizontal lines bottom to top |
| Grid.DrawAxes | src/canvas-graph.js:118-131 | sets black width-2 strokes, then draws the y-axis iff cx - radX <= 0 <= cx + radX and the x-axis iff cy - radY <= 0 <= cy + radY |
| Grid.DrawAxis | src/canvas-graph.js:120-131 | one axis: the line at 0, drawn exactly when 0 is within the visible range |
| Grid.DrawGridLines | src/canvas-graph.js:103-116 | the counting loop draws one full-height or full-width line at every integer from floor(lo) to hi |
| Grid.SetStyle | src/canvas-graph.js:99-100 | the stroke colour and line width are written, in that order |
| Grid.DrawSegment | src/canvas-graph.js:104-107 | beginPath, moveTo, lineTo, stroke between two pixels |
| Grid.GridLine | src/canvas-graph.js:103-107 | one grid or axis line as beginPath, moveTo, lineTo, stroke: at x = k from the top to the bottom edge when vertical, at y = k from the left to the right edge when not |
| Grid.GridCmds | src/canvas-graph.js:95-132 | drawLines' whole output: the grey style and unit lines, then the black style and whichever axes are in view |
| Adapter.WrapperSet | src/canvas-graph.js:640-642 | a write reaches the context exactly when its name is not one of the fourteen |
| Adapter.Perform | src/canvas-graph.js:579-642 | one request on the wrapped context issues the remapped call, the pass-through call or the set trap's write |
| Adapter.DrawWrapped | src/canvas-graph.js:560-646 | the custom drawer's requests reach the context in order, each rewritten by the Proxy |
| Adapter.GetAgreesWithSet | src/canvas-graph.js:562-642 | get remaps a name iff it is in the affected list, and set drops a write iff get remaps that name |
| Adapter.CallsAreRemapped | src/canvas-graph.js:579-635 | every geometry call is made through a name the get trap remaps |
| Adapter.ScriptKeepsAffectedNames | src/canvas-graph.js:640-642 | no write a custom drawer makes to one of the fourteen names reaches the context |
| Adapter.PixelNear | src/canvas-graph.js:579-635 | every point the adapter passes on reads back through ctg to within a pixel of the graph point |
| Adapter.LengthBack | src/canvas-graph.js:592-631 | lengths passed as sgtc(n) read back as n, and heights passed as -sgtc(h) read back as -h |
| Adapter.RemapRecovers | src/canvas-graph.js:579-635 | every remapped call reads back as its graph-space call: points within a pixel, lengths and negated heights exactly, angles, flags, images and text unchanged, maxWidth omitted when not given |
| Adapter.Get | src/canvas-graph.js:579-639 | the get trap's dispatch: the fourteen geometry names give a remapping function, every other name the context's own member |
| Adapter.RemapCall | src/canvas-graph.js:580-635 | the pixel call each geometry call becomes: points through gtc, lengths through sgtc, rectangle and image heights negated, angles, flags, images and text unchanged, maxWidth scaled when given |
| Adapter.SetTrap | src/canvas-graph.js:640-642 | the set trap: the write reaches the context unless the name is one of the fourteen |
| Adapter.ScriptCmds | src/canvas-graph.js:645 | what a custom drawer's requests, in order, make on the underlying context |
| Primitives.SampleCountCovers | src/canvas-graph.js:503 | column sx is sampled exactly when sx <= width |
| Primitives.Samples | src/canvas-graph.js:503-508 | the sampling loop issues one path step per sampled column |
| Primitives.SamplesAt | src/canvas-graph.js:503-508 | the sx-th path step is column sx's: a moveTo for column 0, a lineTo after it |
| Primitives.SetStroke | src/canvas-graph.js:343-347 | the stroke style's writes on the context |
| Primitives.SetFill | src/canvas-graph.js:357-360 | the fill style's write on the context |
| Primitives.DrawFunc | src/canvas-graph.js:499-510 | GraphFunc.draw sets the stroke, opens a path, issues one step per column 0 to width and strokes |
| Primitives.DrawLine | src/canvas-graph.js:404-413 | GraphLine.draw strokes one segment between the gtc pixels of its endpoints |
| Primitives.DrawCircle | src/canvas-graph.js:437-447 | GraphCircle.draw strokes and fills a full ellipse at gtc of the centre with both radii sgtc(r) |
| Primitives.DrawRect | src/canvas-graph.js:472-481 | GraphRect.draw fills and outlines the rectangle at gtc(x, y) of size (sgtc w, sgtc h), the height not negated |
| Primitives.DrawText | src/canvas-graph.js:535-543 | GraphText.draw centres the text at gtc(x, y) with a floor(2 sgtc(height)) pixel font, with no maxWidth |
| Primitives.Draw | src/canvas-graph.js:375-646 | each drawer's draw issues exactly its kind's calls; the base drawer issues none |
| Primitives.DrawAll | src/canvas-graph.js:84-88 | forEach over a list issues each drawer's calls in list order |
| Primitives.RenderAllSnoc | src/canvas-graph.js:84-88 | appending a drawer to a list appends its calls after the list's calls |
| Primitives.SampleColumn | src/canvas-graph.js:503-506 | the vertex for column sx lies exactly in column sx |
| Primitives.SampleOnCurve | src/canvas-graph.js:503-508 | each vertex reads back to within a pixel of the curve point (x, f(x)) it plots |
| Primitives.SamplesSpanView | src/canvas-graph.js:499-510 | there are floor(width) + 1 samples, the first at cx - radX, strictly increasing, the last within a pixel of cx + radX |
| Primitives.TextFontSize | src/canvas-graph.js:539 | the font is the largest whole pixel size whose graph height is at most twice the text's height |
| Primitives.RenderAgreesWithAdapter | src/canvas-graph.js:404-543 | line, circle and text geometry equals the Proxy's remapping of the same graph-space moveTo/lineTo, ellipse and fillText |
| Primitives.RectIsFlippedAdapterRect | src/canvas-graph.js:472-481 | GraphRect's fillRect equals the Proxy's fillRect with the height negated |
| Primitives.RectHangsFromCorner | src/canvas-graph.js:450-481 | GraphRect's first corner reads back within a pixel of (x, y), and its opposite corner is (x + w, y - h) in graph space |
| Primitives.RenderRecovers | src/canvas-graph.js:404-543 | the line, circle and text a drawer paints read back to its graph-space geometry |
| Primitives.SampleCount | src/canvas-graph.js:503 | how many columns the sampling loop visits: every whole sx from 0 up to width |
| Primitives.SampleCmd | src/canvas-graph.js:504-507 | the path step for column sx: to gtc(x, f(x)) where x is the graph x of the column, a moveTo for column 0 and a lineTo after it |
| Primitives.LineCmds | src/canvas-graph.js:404-413 | GraphLine.draw's calls: the stroke style, then one stroked path from gtc of the start to gtc of the end |
| Primitives.CircleCmds | src/canvas-graph.js:437-447 | GraphCircle.draw's calls: both styles, then a full ellipse at gtc of the centre with both radii sgtc(r), stroked then filled |
| Primitives.RectCmds | src/canvas-graph.js:472-481 | GraphRect.draw's calls: both styles, then fillRect and strokeRect at gtc(x, y) with sgtc(w) and sgtc(h), the height not negated |
| Primitives.FuncCmds | src/canvas-graph.js:499-510 | GraphFunc.draw's calls: the stroke style, then one stroked path through a vertex per sampled column |
| Primitives.TextCmds | src/canvas-graph.js:535-543 | GraphText.draw's calls: centre alignment, middle baseline, a floor(2 sgtc(height)) pixel font, both styles, then fillText at gtc(x, y) with no maxWidth |
| Primitives.Render | src/canvas-graph.js:375-543 | what each kind of drawer issues for one frame: nothing for the base GraphDrawer, its own draw calls for the others |
| Primitives.RenderAll | src/canvas-graph.js:84-88 | what a list of drawers issues: each drawer's calls, in list order |
| Primitives.StylesInForce | src/canvas-graph.js:334-360 | in every line, circle, rectangle, function and text drawer's calls, the last strokeStyle and lineWidth written before each stroke are its stroke style's, the last fillStyle before each fill is its fill style's colour, and line and function drawers fill nothing |
| Primitives.FuncStyles | src/canvas-graph.js:499-510 | a function drawer strokes with its stroke style and fills nothing |
| CanvasGraph.EffectiveAutosize | src/canvas-graph.js:31 | autosize holds exactly when requested and not fullsize, so the two modes never both hold |
| CanvasGraph.MergeOptions | src/canvas-graph.js:12-23 | every option given wins over its default and every option left out takes it; no options give the defaults |
| CanvasGraph.ListenerMatchesResize | src/canvas-graph.js:186-218 | the resize event listened to is the one whose size resize reads; a fixed-size graph listens to none |
| CanvasGraph.BackgroundCoversView | src/canvas-graph.js:71-72 | the background rectangle's corners are the visible area's corners |
| CanvasGraph.FrameSplit | src/canvas-graph.js:70-89 | the calls of background, grid and the five lists, appended in turn, make the frame |
| CanvasGraph.AddedLineOrder | src/canvas-graph.js:84-88 | a line added is drawn after the lines before it and before circles and custom drawers; a custom drawer added is drawn last |
| CanvasGraph.GridToggle | src/canvas-graph.js:74 | turning the grid on inserts exactly drawLines' calls between the background and the drawers |
| CanvasGraph.Graph.constructor | src/canvas-graph.js:11-65 | options merged, centre and radius from the defaults, autosize = autosize and not fullsize, lists empty, not dragging, grid off, canvas sized once, then one frame drawn |
| CanvasGraph.Graph.DrawGraph | src/canvas-graph.js:70-89 | one frame: white background over the canvas, the grid if on, then funcs, rects, lines, circles and others, each in list order |
| CanvasGraph.Graph.DrawLines | src/canvas-graph.js:95-132 | drawLines on the graph's context for its current viewport |
| CanvasGraph.Graph.DragStart | src/canvas-graph.js:134-136 | a press sets dragging and changes nothing else |
| CanvasGraph.Graph.DragEnd | src/canvas-graph.js:152-154 | a release always clears dragging and changes nothing else |
| CanvasGraph.Graph.DragMove | src/canvas-graph.js:140-151 | ignored when not dragging; otherwise the viewport pans by (-sctg dx, sctg dy) and one frame is drawn |
| CanvasGraph.Graph.OnScroll | src/canvas-graph.js:159-180 | the viewport becomes the zoom step about the cursor, the rest of the state is kept and one frame is drawn |
| CanvasGraph.Graph.Resize | src/canvas-graph.js:210-222 | the size comes from the window, the container or stays fixed, aspect = width / height, the surface is resized, and nothing is redrawn |
| CanvasGraph.Graph.AddLine | src/canvas-graph.js:283-286 | appends to lines only, keeps the viewport and redraws |
| CanvasGraph.Graph.AddCircle | src/canvas-graph.js:291-294 | appends to circles only, keeps the viewport and redraws |
| CanvasGraph.Graph.AddRect | src/canvas-graph.js:299-302 | appends to rects only, keeps the viewport and redraws |
| CanvasGraph.Graph.AddFunc | src/canvas-graph.js:307-310 | appends to funcs only, keeps the viewport and redraws |
| CanvasGraph.Graph.AddOther | src/canvas-graph.js:315-318 | appends to others only, keeps the viewport and redraws |
| CanvasGraph.Graph.SetDrawGrid | src/canvas-graph.js:327-331 | the drawGrid setter stores the flag, keeps everything else and redraws; the getter then returns the value just set |
| CanvasGraph.Merge | src/canvas-graph.js:12-23 | the settings the constructor uses: each option given replaces its default, the others keep it |
| CanvasGraph.SizeSourceOf | src/canvas-graph.js:211-218 | where resize takes the size from: the window when fullsize, else the container when autosize, else the current size |
| CanvasGraph.ListenerOf | src/canvas-graph.js:187-191 | which event triggers resize: the container's resize when autosize, else the window's when fullsize, else none |
| CanvasGraph.Frame | src/canvas-graph.js:70-89 | everything drawGraph issues: the white background, the grid when on, then functions, rectangles, lines, circles and custom drawers, each list in order |

## Left out

- DOM and event plumbing:
  - creating the canvas and getting its context;
  - registering listeners, and binding gtc/sgtc/ctg/sctg;
  - the style and cursor writes in setCanvasSize.

  Event fields (movementX/Y, deltaY, clientX/Y) and the window's and container's sizes are parameters instead. `ListenerOf` records only which resize event is chosen.
- IEEE-754 arithmetic: numbers are exact reals, so rounding, overflow, NaN and Infinity are not modelled. `Math.PI * 2` is the constant `TwoPi`.
- Division by zero: the source divides by radX, aspect, width and height without checking them. The model requires them to be non-zero (`NonZero`, `Valid`) rather than modelling the resulting Infinity and NaN.
- A fixed-size graph created without width or height: the source computes an undefined aspect (NaN). The model's constructor requires both to be given.
- Option values given explicitly as `undefined`, or of the wrong type: `Object.assign` copies them over the default. The model treats an option as either given or left out.
- The canvas's truncation of a fractional surface size to whole pixels: `ResizeSurface` records the size as assigned.
- Colours, the `'2'` default line width and the font string are opaque values. Only the font's pixel size is computed.
- The rasterizer: the model records the calls made on the context, not the pixels they paint.
- Custom drawers can read the context's members and call any of them, but cannot read values back. A pass-through member is returned unbound (src/canvas-graph.js:637), so calling a method through the Proxy, such as `ctx.stroke()`, makes the Proxy its receiver, and a browser then throws a TypeError. The model records such a call as an `Invoke` request that reaches the context (`Other`), which the host would refuse.
- `drawImage`: only its nine-argument form is modelled.
- A `maxWidth` in fillText or strokeText that is neither omitted nor a number (a string gives NaN through sgtc, `null` gives 0): the model's maxWidth is absent or a number.
- The set trap returns `undefined`, which makes a strict-mode write throw. Only whether the write reaches the context is modelled.
- Primitives.Samples: states the length only; what each step is comes from Primitives.SamplesAt.
- Grid.Range and Grid.GridLines: state the length only; their elements come from Grid.RangeAt and Grid.GridLineAt.
