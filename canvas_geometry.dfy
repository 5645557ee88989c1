/**
 * Crop-frame geometry of the canvas component: the centred crop box, the four dimming
 * bands painted around it, the resize handle at its bottom-right corner and the handle
 * hit test. All coordinates are canvas-space reals.
 */
module CanvasGeometry {

  datatype Point = Point(x: real, y: real)
  datatype Size = Size(width: real, height: real)
  datatype Rect = Rect(x: real, y: real, width: real, height: real)

  /** Visual radius of the resize handle. */
  const HandleRadius: real := 8.0
  /** Extra distance around the handle that still grabs it. */
  const HitSlop: real := 10.0
  /** Smallest crop dimension a resize move produces. */
  const MinCropSize: real := 100.0

  /** The crop box: `size` centred on the canvas midpoint. */
  function CropBox(canvas: Size, size: Size): (r: Rect)
    ensures r.width == size.width && r.height == size.height
    ensures r.x + r.width / 2.0 == canvas.width / 2.0
    ensures r.y + r.height / 2.0 == canvas.height / 2.0
  {
    Rect(canvas.width / 2.0 - size.width / 2.0, canvas.height / 2.0 - size.height / 2.0,
         size.width, size.height)
  }

  /** Centre of the handle: the bottom-right corner of the box. */
  function Handle(box: Rect): Point {
    Point(box.x + box.width, box.y + box.height)
  }

  /**
   * The pointer grabs the handle when its distance to the handle centre is below
   * `HandleRadius + HitSlop`; compared on squares, without the square root.
   */
  predicate HitsHandle(p: Point, handle: Point) {
    var dx := p.x - handle.x;
    var dy := p.y - handle.y;
    dx * dx + dy * dy < (HandleRadius + HitSlop) * (HandleRadius + HitSlop)
  }

  /** Comparing squared distances decides the same as comparing the distance itself. */
  lemma HitsHandleIffDistanceBelowThreshold(p: Point, handle: Point, distance: real)
    requires distance >= 0.0
    requires distance * distance
             == (p.x - handle.x) * (p.x - handle.x) + (p.y - handle.y) * (p.y - handle.y)
    ensures HitsHandle(p, handle) <==> distance < HandleRadius + HitSlop
  {
    var t := HandleRadius + HitSlop;
    if distance < t {
      assert distance * distance <= distance * t;
      assert distance * t < t * t;
    } else {
      assert distance * distance >= distance * t;
      assert distance * t >= t * t;
    }
  }

  /** Where the pointer is, and how the canvas buffer relates to its on-screen box. */
  datatype CanvasView = CanvasView(
    buffer: Size,      // canvas.width, canvas.height
    left: real,        // getBoundingClientRect().left
    top: real,         // getBoundingClientRect().top
    display: Size)     // getBoundingClientRect().width, height

  /** Client coordinates mapped into the canvas buffer (scaled by buffer/display size). */
  function ToBuffer(view: CanvasView, clientX: real, clientY: real): (p: Point)
    requires view.display.width > 0.0 && view.display.height > 0.0
    ensures p.x * view.display.width == (clientX - view.left) * view.buffer.width
    ensures p.y * view.display.height == (clientY - view.top) * view.buffer.height
    ensures view.buffer == view.display ==> p == Point(clientX - view.left, clientY - view.top)
  {
    var sx := view.buffer.width / view.display.width;
    var sy := view.buffer.height / view.display.height;
    assert sx * view.display.width == view.buffer.width;
    assert sy * view.display.height == view.buffer.height;
    Point((clientX - view.left) * sx, (clientY - view.top) * sy)
  }

  // ---------------------------------------------------------------------------
  // The dim overlay

  /** `fillRect` extent along one axis: a negative length paints from `start + len` to `start`. */
  predicate InSpan(start: real, len: real, v: real) {
    if len >= 0.0 then start <= v < start + len else start + len <= v < start
  }

  predicate Covers(r: Rect, p: Point) {
    InSpan(r.x, r.width, p.x) && InSpan(r.y, r.height, p.y)
  }

  /** The four dimming bands, in painting order: top, bottom, left, right. */
  function Bands(canvas: Size, box: Rect): (bands: seq<Rect>)
    ensures |bands| == 4
  {
    [ Rect(0.0, 0.0, canvas.width, box.y),
      Rect(0.0, box.y + box.height, canvas.width, canvas.height),
      Rect(0.0, box.y, box.x, box.height),
      Rect(box.x + box.width, box.y, canvas.width, box.height) ]
  }

  /** Number of bands painted over the point `p`. */
  function DimLayers(bands: seq<Rect>, p: Point): (n: nat)
    ensures n <= |bands|
  {
    if bands == [] then 0
    else (if Covers(bands[0], p) then 1 else 0) + DimLayers(bands[1..], p)
  }

  /** Layer count of the four bands, one band at a time. */
  lemma DimLayersOfBands(canvas: Size, box: Rect, p: Point)
    ensures var b := Bands(canvas, box);
      DimLayers(b, p) == (if Covers(b[0], p) then 1 else 0) + (if Covers(b[1], p) then 1 else 0)
        + (if Covers(b[2], p) then 1 else 0) + (if Covers(b[3], p) then 1 else 0)
  {
    var b := Bands(canvas, box);
    assert DimLayers(b[4..], p) == 0;
    assert DimLayers(b[3..], p) == (if Covers(b[3], p) then 1 else 0) by { assert b[3..][1..] == b[4..]; }
    assert DimLayers(b[2..], p) == (if Covers(b[2], p) then 1 else 0) + DimLayers(b[3..], p)
      by { assert b[2..][1..] == b[3..]; }
    assert DimLayers(b[1..], p) == (if Covers(b[1], p) then 1 else 0) + DimLayers(b[2..], p)
      by { assert b[1..][1..] == b[2..]; }
  }

  /**
   * Every canvas point outside the crop box is dimmed exactly once, and no point inside
   * it is dimmed, whatever the (non-negative) crop size.
   */
  lemma DimmedExactlyOutsideBox(canvas: Size, size: Size, p: Point)
    requires canvas.width >= 0.0 && canvas.height >= 0.0
    requires size.width >= 0.0 && size.height >= 0.0
    requires 0.0 <= p.x < canvas.width && 0.0 <= p.y < canvas.height
    ensures var box := CropBox(canvas, size);
      DimLayers(Bands(canvas, box), p) == if Covers(box, p) then 0 else 1
  {
    DimLayersOfBands(canvas, CropBox(canvas, size), p);
  }

  /**
   * A negative crop width (no wider than the canvas) makes the left and the right band
   * overlap on the box itself: every canvas point inside the box is dimmed twice.
   */
  lemma NegativeWidthDimsBoxTwice(canvas: Size, size: Size, p: Point)
    requires canvas.width >= 0.0 && canvas.height >= 0.0
    requires -canvas.width <= size.width < 0.0 && size.height >= 0.0
    requires 0.0 <= p.x < canvas.width && 0.0 <= p.y < canvas.height
    requires Covers(CropBox(canvas, size), p)
    ensures DimLayers(Bands(canvas, CropBox(canvas, size)), p) == 2
  {
    DimLayersOfBands(canvas, CropBox(canvas, size), p);
  }

  /**
   * The mirror case: a negative crop height (no taller than the canvas) makes the top and
   * the bottom band overlap on the box, so every canvas point inside it is dimmed twice.
   */
  lemma NegativeHeightDimsBoxTwice(canvas: Size, size: Size, p: Point)
    requires canvas.width >= 0.0 && canvas.height >= 0.0
    requires size.width >= 0.0 && -canvas.height <= size.height < 0.0
    requires 0.0 <= p.x < canvas.width && 0.0 <= p.y < canvas.height
    requires Covers(CropBox(canvas, size), p)
    ensures DimLayers(Bands(canvas, CropBox(canvas, size)), p) == 2
  {
    DimLayersOfBands(canvas, CropBox(canvas, size), p);
  }
}
