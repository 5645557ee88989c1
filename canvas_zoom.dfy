/**
 * Wheel zoom of the canvas: one step of `sensitivity` percent, clamped to [0.1, 5], and a
 * position correction that keeps the image point under the cursor where it was.
 */
module CanvasZoom {
  import opened Wrappers
  import opened CanvasGeometry

  const MinScale: real := 0.1
  const MaxScale: real := 5.0

  function Clamp(v: real, lo: real, hi: real): (r: real)
    requires lo <= hi
    ensures lo <= r <= hi
    ensures lo <= v <= hi ==> r == v
    ensures v < lo ==> r == lo
    ensures v > hi ==> r == hi
  {
    if v < lo then lo else if v > hi then hi else v
  }

  /** Scrolling down (positive deltaY) zooms out; anything else, zero included, zooms in. */
  function Direction(deltaY: real): (d: int)
    ensures d == -1 <==> deltaY > 0.0
    ensures d == 1 <==> deltaY <= 0.0
  {
    if deltaY > 0.0 then -1 else 1
  }

  datatype Zoom = Zoom(scale: real, position: Point)

  /**
   * The wheel handler. No image: nothing. Otherwise the pointer position is taken relative
   * to the canvas box, unscaled by the buffer/display ratio, as the handler does.
   */
  function Wheel(imageLoaded: bool, clientX: real, clientY: real, rectLeft: real, rectTop: real,
                 deltaY: real, scale: real, position: Point, sensitivity: int): (r: Option<Zoom>)
    requires imageLoaded ==> scale > 0.0
    ensures r.None? <==> !imageLoaded
    ensures r.Some? ==> MinScale <= r.value.scale <= MaxScale
    ensures r.Some? ==>
      r.value.scale == Clamp(scale + Direction(deltaY) as real * (sensitivity as real / 100.0), MinScale, MaxScale)
    ensures r.Some? && deltaY > 0.0 && sensitivity >= 0 && MinScale <= scale <= MaxScale ==> r.value.scale <= scale
    ensures r.Some? && deltaY <= 0.0 && sensitivity >= 0 && MinScale <= scale <= MaxScale ==> r.value.scale >= scale
  {
    if !imageLoaded then None
    else
      var mouseX := clientX - rectLeft;
      var mouseY := clientY - rectTop;
      var step := sensitivity as real / 100.0;
      var newScale := Clamp(scale + Direction(deltaY) as real * step, MinScale, MaxScale);
      var ratio := newScale / scale;
      Some(Zoom(newScale, Point(mouseX - (mouseX - position.x) * ratio,
                                mouseY - (mouseY - position.y) * ratio)))
  }

  /** The image coordinate shown at canvas point `m` for a given position and scale. */
  function ImageCoordinate(m: real, position: real, scale: real): (c: real)
    requires scale > 0.0
    ensures position + c * scale == m
  {
    (m - position) / scale
  }

  lemma AnchorAxis(m: real, p: real, s: real, s': real)
    requires s > 0.0 && s' > 0.0
    ensures ImageCoordinate(m, m - (m - p) * (s' / s), s') == ImageCoordinate(m, p, s)
  {
    var q := (m - p) / s;
    assert m - p == q * s;
    assert (m - p) * (s' / s) == q * s';
    assert m - (m - (m - p) * (s' / s)) == q * s';
  }

  /**
   * The image point under the cursor stays under the cursor:
   * `(mouse - newPosition) / newScale == (mouse - position) / scale` on both axes.
   */
  lemma WheelKeepsCursorAnchor(clientX: real, clientY: real, rectLeft: real, rectTop: real,
                               deltaY: real, scale: real, position: Point, sensitivity: int)
    requires scale > 0.0
    ensures var r := Wheel(true, clientX, clientY, rectLeft, rectTop, deltaY, scale, position, sensitivity).value;
      ImageCoordinate(clientX - rectLeft, r.position.x, r.scale) == ImageCoordinate(clientX - rectLeft, position.x, scale)
      && ImageCoordinate(clientY - rectTop, r.position.y, r.scale) == ImageCoordinate(clientY - rectTop, position.y, scale)
  {
    var r := Wheel(true, clientX, clientY, rectLeft, rectTop, deltaY, scale, position, sensitivity).value;
    AnchorAxis(clientX - rectLeft, position.x, scale, r.scale);
    AnchorAxis(clientY - rectTop, position.y, scale, r.scale);
  }

  /** Sensitivity 10 at scale 1: one step down gives 0.9, one step up gives 1.1. */
  lemma TenPercentStep(position: Point)
    ensures Wheel(true, 0.0, 0.0, 0.0, 0.0, 1.0, 1.0, position, 10).value.scale == 0.9
    ensures Wheel(true, 0.0, 0.0, 0.0, 0.0, -1.0, 1.0, position, 10).value.scale == 1.1
  {
  }
}
