/**
 * Export of the crop (`getCroppedCanvas`) and the state snapshot (`getCanvasState`).
 * The export is described by the drawing plan it performs, not by pixels.
 */
module CanvasExport {
  import opened Wrappers
  import opened CanvasGeometry

  datatype ExportPlan =
      /** No rotation: one copy from the image rectangle `source` onto the whole output. */
    | Direct(source: Rect, outputWidth: int, outputHeight: int)
      /**
       * Rotation: the rotated image is drawn on a scratch canvas the size of the visible one,
       * then the `window` of that scratch canvas is copied onto the whole output.
       */
    | ViaScene(scene: Size, window: Rect, outputWidth: int, outputHeight: int)

  function OutputSize(plan: ExportPlan): (int, int) {
    (plan.outputWidth, plan.outputHeight)
  }

  /** The largest canvas `width` or `height` that is kept as assigned: 2^31 - 1. */
  const MaxDimension: int := 0x7FFF_FFFF
  /** The default `width` and `height` of a canvas element. */
  const DefaultWidth: nat := 300
  const DefaultHeight: nat := 150

  /**
   * What a canvas `width` (or `height`) reads back after the integer `v` is assigned to it:
   * `v` is converted to an unsigned 32-bit integer (taken modulo 2^32), and a result
   * above 2^31 - 1 is replaced by the attribute's default.
   */
  function CanvasDimension(v: int, default: nat): (d: nat)
    ensures 0 <= v <= MaxDimension ==> d == v
    ensures -0x8000_0000 <= v < 0 ==> d == default
    ensures d <= MaxDimension || d == default
  {
    var u := v % 0x1_0000_0000;
    assert -0x8000_0000 <= v < 0 ==> u == v + 0x1_0000_0000;
    if u <= MaxDimension then u else default
  }

  /** The canvas buffer size as reals. */
  function SizeOf(width: int, height: int): Size {
    Size(width as real, height as real)
  }

  /**
   * `getCroppedCanvas`: null without a canvas or an image; otherwise an output canvas
   * assigned the committed crop size (kept when it is a valid canvas size, replaced by the
   * default size when it is negative), filled either from the image rectangle that the
   * crop box covers (no rotation) or from the crop box of a re-rendered scene (rotation).
   */
  function GetCroppedCanvas(canvas: Option<Size>, imageLoaded: bool, cropWidth: int, cropHeight: int,
                            position: Point, scale: real, rotation: int): (r: Option<ExportPlan>)
    requires scale > 0.0
    ensures r.None? <==> canvas.None? || !imageLoaded
    ensures r.Some? ==>
      OutputSize(r.value) == (CanvasDimension(cropWidth, DefaultWidth), CanvasDimension(cropHeight, DefaultHeight))
    ensures r.Some? && 0 <= cropWidth <= MaxDimension && 0 <= cropHeight <= MaxDimension ==>
      OutputSize(r.value) == (cropWidth, cropHeight)
    ensures r.Some? && -0x8000_0000 <= cropWidth < 0 ==> r.value.outputWidth == DefaultWidth
    ensures r.Some? && -0x8000_0000 <= cropHeight < 0 ==> r.value.outputHeight == DefaultHeight
    ensures r.Some? ==> (r.value.Direct? <==> rotation == 0)
    ensures r.Some? && rotation == 0 ==>
      var box := CropBox(canvas.value, SizeOf(cropWidth, cropHeight));
      var src := r.value.source;
      position.x + src.x * scale == box.x && position.y + src.y * scale == box.y
      && src.width * scale == cropWidth as real && src.height * scale == cropHeight as real
    ensures r.Some? && rotation != 0 ==>
      r.value.scene == canvas.value
      && r.value.window == CropBox(canvas.value, SizeOf(cropWidth, cropHeight))
  {
    if canvas.None? || !imageLoaded then None
    else
      var box := CropBox(canvas.value, SizeOf(cropWidth, cropHeight));
      var outputWidth := CanvasDimension(cropWidth, DefaultWidth);
      var outputHeight := CanvasDimension(cropHeight, DefaultHeight);
      if rotation != 0 then Some(ViaScene(canvas.value, box, outputWidth, outputHeight))
      else
        var sourceX := (box.x - position.x) / scale;
        var sourceY := (box.y - position.y) / scale;
        Some(Direct(Rect(sourceX, sourceY, cropWidth as real / scale, cropHeight as real / scale),
                    outputWidth, outputHeight))
  }

  /** The point `u` of an output axis of length `len` maps to `start + u * extent / len`. */
  function SampleAt(start: real, extent: real, len: real, u: real): real
    requires len > 0.0
  {
    start + u * (extent / len)
  }

  lemma ParityAxis(p: real, s: real, b: real, len: real, u: real)
    requires s > 0.0 && len > 0.0
    ensures p + SampleAt((b - p) / s, len / s, len, u) * s == b + u
  {
    var q := (b - p) / s;
    assert q * s == b - p;
    assert (len / s) / len == 1.0 / s;
    assert SampleAt(q, len / s, len, u) == q + u / s;
    assert (q + u / s) * s == q * s + u;
  }

  /**
   * Preview/export parity without rotation: the image point sampled for output pixel
   * `(u, v)` is the one the preview shows at `(cropBox.x + u, cropBox.y + v)`.
   */
  lemma DirectExportMatchesPreview(canvas: Size, cropWidth: int, cropHeight: int,
                                   position: Point, scale: real, u: real, v: real)
    requires scale > 0.0 && cropWidth > 0 && cropHeight > 0
    ensures var plan := GetCroppedCanvas(Some(canvas), true, cropWidth, cropHeight, position, scale, 0).value;
      var box := CropBox(canvas, SizeOf(cropWidth, cropHeight));
      position.x + SampleAt(plan.source.x, plan.source.width, cropWidth as real, u) * scale == box.x + u
      && position.y + SampleAt(plan.source.y, plan.source.height, cropHeight as real, v) * scale == box.y + v
  {
    var box := CropBox(canvas, SizeOf(cropWidth, cropHeight));
    ParityAxis(position.x, scale, box.x, cropWidth as real, u);
    ParityAxis(position.y, scale, box.y, cropHeight as real, v);
  }

  /** Scenario: 832 x 1216 crop on a 1200 x 1200 canvas, scale 1 at (0, 0). */
  lemma PortraitOnSquareCanvas()
    ensures var plan := GetCroppedCanvas(Some(Size(1200.0, 1200.0)), true, 832, 1216, Point(0.0, 0.0), 1.0, 0).value;
      plan.source == Rect(184.0, -8.0, 832.0, 1216.0) && OutputSize(plan) == (832, 1216)
  {
  }

  datatype CropBoxInfo = CropBoxInfo(centerX: real, centerY: real, width: int, height: int)
  datatype CanvasState = CanvasState(hasImage: bool, position: Point, scale: real, cropBox: CropBoxInfo)

  /**
   * `getCanvasState`: with a canvas, the current image, position, scale and a crop box
   * centred on the canvas; without one, no image, the origin, scale 1 and centre (0, 0).
   */
  function GetCanvasState(canvas: Option<Size>, imageLoaded: bool, position: Point, scale: real,
                          cropWidth: int, cropHeight: int): (r: CanvasState)
    ensures r.cropBox.width == cropWidth && r.cropBox.height == cropHeight
    ensures canvas.Some? ==>
      r.cropBox.centerX * 2.0 == canvas.value.width && r.cropBox.centerY * 2.0 == canvas.value.height
      && r.hasImage == imageLoaded && r.position == position && r.scale == scale
    ensures canvas.None? ==>
      !r.hasImage && r.position == Point(0.0, 0.0) && r.scale == 1.0
      && r.cropBox.centerX == 0.0 && r.cropBox.centerY == 0.0
  {
    match canvas
    case None => CanvasState(false, Point(0.0, 0.0), 1.0, CropBoxInfo(0.0, 0.0, cropWidth, cropHeight))
    case Some(c) =>
      CanvasState(imageLoaded, position, scale, CropBoxInfo(c.width / 2.0, c.height / 2.0, cropWidth, cropHeight))
  }
}
