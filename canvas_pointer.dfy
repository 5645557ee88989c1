/**
 * The canvas's pointer state machine (idle, dragging, resizing). `Gesture` is the value
 * of the component's refs; `Press`, `Move` and `Release` are the mouse-down, mouse-move
 * and mouse-up/mouse-leave handlers as transitions, and `CanvasRefs` is the component's
 * mutable refs with one method per handler, each proved to perform its transition.
 */
module CanvasPointer {
  import opened Wrappers
  import opened CanvasGeometry

  /** What mouse-down snapshots for a resize: committed crop size and raw client pointer. */
  datatype ResizeStart = ResizeStart(width: real, height: real, mouseX: real, mouseY: real)

  /** The refs: both flags, the drag offset, the resize snapshot and the transient size. */
  datatype Gesture = Gesture(
    dragging: bool,
    resizing: bool,
    dragStart: Point,
    resizeStart: ResizeStart,
    candidate: Size)

  /** The refs as the component creates them. */
  const Initial: Gesture :=
    Gesture(false, false, Point(0.0, 0.0), ResizeStart(0.0, 0.0, 0.0, 0.0), Size(0.0, 0.0))

  function Max(a: real, b: real): real {
    if a >= b then a else b
  }

  /** `Math.round`: the nearest integer, halves rounded up. */
  function Round(x: real): (r: int)
    ensures r as real - 0.5 <= x < r as real + 0.5
  {
    (x + 0.5).Floor
  }

  /** The pointer grabs the handle of the committed crop box (buffer-scaled pointer). */
  predicate GrabsHandle(view: CanvasView, clientX: real, clientY: real, crop: Size)
    requires view.display.width > 0.0 && view.display.height > 0.0
  {
    HitsHandle(ToBuffer(view, clientX, clientY), Handle(CropBox(view.buffer, crop)))
  }

  /**
   * Mouse-down: a press on the handle starts a resize (even over a loaded image);
   * otherwise a loaded image starts a drag; otherwise nothing changes. The transient
   * size is not reset, and the other flag is not cleared.
   */
  function Press(g: Gesture, view: CanvasView, clientX: real, clientY: real, crop: Size,
                 imageLoaded: bool, position: Point): (r: Gesture)
    requires view.display.width > 0.0 && view.display.height > 0.0
    ensures r.resizing <==> g.resizing || GrabsHandle(view, clientX, clientY, crop)
    ensures r.dragging <==> g.dragging || (!GrabsHandle(view, clientX, clientY, crop) && imageLoaded)
    ensures GrabsHandle(view, clientX, clientY, crop) ==>
      r.resizeStart == ResizeStart(crop.width, crop.height, clientX, clientY) && r.dragStart == g.dragStart
    ensures !GrabsHandle(view, clientX, clientY, crop) && imageLoaded ==>
      r.dragStart.x + position.x == clientX && r.dragStart.y + position.y == clientY
      && r.resizeStart == g.resizeStart
    ensures !GrabsHandle(view, clientX, clientY, crop) && !imageLoaded ==> r == g
    ensures r.candidate == g.candidate
  {
    if GrabsHandle(view, clientX, clientY, crop) then
      g.(resizing := true, resizeStart := ResizeStart(crop.width, crop.height, clientX, clientY))
    else if imageLoaded then
      g.(dragging := true, dragStart := Point(clientX - position.x, clientY - position.y))
    else g
  }

  /**
   * Mouse-move: while resizing, the transient size follows the pointer delta, never below
   * `MinCropSize`; otherwise, while dragging a loaded image, a new position is emitted.
   */
  function Move(g: Gesture, clientX: real, clientY: real, imageLoaded: bool)
    : (r: (Gesture, Option<Point>))
    ensures g.resizing ==>
      r.1.None? && r.0.candidate.width >= MinCropSize && r.0.candidate.height >= MinCropSize
      && r.0.candidate.width >= g.resizeStart.width + (clientX - g.resizeStart.mouseX)
      && r.0.candidate.height >= g.resizeStart.height + (clientY - g.resizeStart.mouseY)
    ensures g.resizing ==>
      (r.0.candidate.width == MinCropSize
       || r.0.candidate.width == g.resizeStart.width + (clientX - g.resizeStart.mouseX))
      && (r.0.candidate.height == MinCropSize
          || r.0.candidate.height == g.resizeStart.height + (clientY - g.resizeStart.mouseY))
    ensures g.resizing ==> r.0 == g.(candidate := r.0.candidate)
    ensures r.0.dragging == g.dragging && r.0.resizing == g.resizing
    ensures !g.resizing ==> r.0 == g
    ensures r.1.Some? <==> !g.resizing && g.dragging && imageLoaded
  {
    if g.resizing then
      var rs := g.resizeStart;
      (g.(candidate := Size(Max(MinCropSize, rs.width + (clientX - rs.mouseX)),
                            Max(MinCropSize, rs.height + (clientY - rs.mouseY)))), None)
    else if g.dragging && imageLoaded then
      (g, Some(Point(clientX - g.dragStart.x, clientY - g.dragStart.y)))
    else (g, None)
  }

  /**
   * Mouse-up and mouse-leave: a resize in progress commits the rounded transient size;
   * both flags are cleared.
   */
  function Release(g: Gesture): (r: (Gesture, Option<(int, int)>))
    ensures !r.0.dragging && !r.0.resizing
    ensures r.1.Some? <==> g.resizing
    ensures g.resizing ==>
      (r.1.value.0 as real - 0.5 <= g.candidate.width < r.1.value.0 as real + 0.5)
      && (r.1.value.1 as real - 0.5 <= g.candidate.height < r.1.value.1 as real + 0.5)
    ensures r.0.candidate == g.candidate
    ensures r.0 == g.(dragging := false, resizing := false)
  {
    (g.(dragging := false, resizing := false),
     if g.resizing then Some((Round(g.candidate.width), Round(g.candidate.height))) else None)
  }

  /** The box drawn by the render: the transient size while resizing, else the committed one. */
  function DisplayedCropBox(g: Gesture, canvas: Size, committed: Size): (box: Rect)
    ensures box.x + box.width / 2.0 == canvas.width / 2.0
    ensures box.y + box.height / 2.0 == canvas.height / 2.0
    ensures g.resizing ==> box.width == g.candidate.width && box.height == g.candidate.height
    ensures !g.resizing ==> box.width == committed.width && box.height == committed.height
  {
    CropBox(canvas, if g.resizing then g.candidate else committed)
  }

  /**
   * Drag keeps deltas: after a press that starts a drag, the emitted position differs
   * from the position at the press by exactly the client-pointer delta (no clamping).
   */
  lemma DragFollowsPointerDelta(g: Gesture, view: CanvasView, x0: real, y0: real, crop: Size,
                                position: Point, x1: real, y1: real)
    requires view.display.width > 0.0 && view.display.height > 0.0
    requires !g.resizing && !GrabsHandle(view, x0, y0, crop)
    ensures var r := Move(Press(g, view, x0, y0, crop, true, position), x1, y1, true).1;
      r.Some? && r.value.x - position.x == x1 - x0 && r.value.y - position.y == y1 - y0
  {
  }

  /** Mouse-up commits the last candidate a resize move stored, rounded. */
  lemma ReleaseCommitsLastMove(g: Gesture, x: real, y: real, imageLoaded: bool)
    requires g.resizing
    ensures var moved := Move(g, x, y, imageLoaded).0;
      Release(moved).1 == Some((Round(moved.candidate.width), Round(moved.candidate.height)))
      && Release(moved).1.value.0 >= 100 && Release(moved).1.value.1 >= 100
  {
  }

  // ---------------------------------------------------------------------------
  // As written, a press never resets the transient size nor clears the other flag.

  /** A 1200 x 1200 canvas shown at its buffer size at the top-left of the page. */
  const SquareView: CanvasView :=
    CanvasView(Size(1200.0, 1200.0), 0.0, 0.0, Size(1200.0, 1200.0))
  /** The default 832 x 1216 crop size. */
  const PortraitCrop: Size := Size(832.0, 1216.0)

  /**
   * A click on the handle with no move in between commits the transient size left from
   * before: on a fresh component that is 0 x 0, below the 100 px minimum.
   */
  lemma ClickOnHandleCommitsStaleSize()
    ensures var pressed := Press(Initial, SquareView, 1016.0, 1208.0, PortraitCrop, false, Point(0.0, 0.0));
      pressed.resizing && Release(pressed).1 == Some((0, 0))
  {
    assert Handle(CropBox(SquareView.buffer, PortraitCrop)) == Point(1016.0, 1208.0);
  }

  /**
   * Two presses without a release in between, the first on the image and the second on
   * the handle, leave both flags set.
   */
  lemma SecondPressSetsBothFlags()
    ensures var first := Press(Initial, SquareView, 600.0, 600.0, PortraitCrop, true, Point(0.0, 0.0));
      var second := Press(first, SquareView, 1016.0, 1208.0, PortraitCrop, true, Point(0.0, 0.0));
      second.dragging && second.resizing
  {
    assert Handle(CropBox(SquareView.buffer, PortraitCrop)) == Point(1016.0, 1208.0);
    assert !HitsHandle(Point(600.0, 600.0), Point(1016.0, 1208.0));
  }

  // ---------------------------------------------------------------------------
  // Corrected press: ignored while a gesture is in progress, and a resize starts from the
  // current size clamped as a move with zero delta would clamp it.

  /** At most one gesture at a time, and a resize always holds a candidate of at least 100. */
  predicate Consistent(g: Gesture) {
    !(g.dragging && g.resizing)
    && (g.resizing ==> g.candidate.width >= MinCropSize && g.candidate.height >= MinCropSize)
  }

  function PressCorrected(g: Gesture, view: CanvasView, clientX: real, clientY: real, crop: Size,
                          imageLoaded: bool, position: Point): (r: Gesture)
    requires view.display.width > 0.0 && view.display.height > 0.0
    ensures Consistent(g) ==> Consistent(r)
    ensures !g.dragging && !g.resizing ==>
      r.resizing == Press(g, view, clientX, clientY, crop, imageLoaded, position).resizing
      && r.dragging == Press(g, view, clientX, clientY, crop, imageLoaded, position).dragging
  {
    if g.dragging || g.resizing then g
    else
      var r := Press(g, view, clientX, clientY, crop, imageLoaded, position);
      if r.resizing then r.(candidate := Size(Max(MinCropSize, crop.width), Max(MinCropSize, crop.height)))
      else r
  }

  /** Move and release keep the corrected machine consistent. */
  lemma MoveReleaseKeepConsistent(g: Gesture, x: real, y: real, imageLoaded: bool)
    requires Consistent(g)
    ensures Consistent(Move(g, x, y, imageLoaded).0)
    ensures Consistent(Release(g).0)
  {
  }

  /** With the corrected press, every committed size is at least 100 x 100. */
  lemma CorrectedCommitNeverBelowMinimum(g: Gesture)
    requires Consistent(g)
    ensures Release(g).1.Some? ==> Release(g).1.value.0 >= 100 && Release(g).1.value.1 >= 100
  {
  }

  /** The corrected click on the handle now commits the current size, not a stale one. */
  lemma CorrectedClickOnHandleCommitsCurrentSize()
    ensures var pressed := PressCorrected(Initial, SquareView, 1016.0, 1208.0, PortraitCrop, false, Point(0.0, 0.0));
      Release(pressed).1 == Some((832, 1216))
  {
    assert Handle(CropBox(SquareView.buffer, PortraitCrop)) == Point(1016.0, 1208.0);
  }

  // ---------------------------------------------------------------------------

  /** The component's refs, updated in place by the mouse handlers. */
  class CanvasRefs {
    var isDragging: bool
    var isResizing: bool
    var dragStart: Point
    var resizeStart: ResizeStart
    var tempResize: Size

    function State(): Gesture
      reads this
    {
      Gesture(isDragging, isResizing, dragStart, resizeStart, tempResize)
    }

    constructor ()
      ensures State() == Initial
    {
      isDragging := false;
      isResizing := false;
      dragStart := Point(0.0, 0.0);
      resizeStart := ResizeStart(0.0, 0.0, 0.0, 0.0);
      tempResize := Size(0.0, 0.0);
    }

    method MouseDown(view: CanvasView, clientX: real, clientY: real, crop: Size,
                     imageLoaded: bool, position: Point)
      requires view.display.width > 0.0 && view.display.height > 0.0
      modifies this
      ensures State() == Press(old(State()), view, clientX, clientY, crop, imageLoaded, position)
    {
      var scaleX := view.buffer.width / view.display.width;
      var scaleY := view.buffer.height / view.display.height;
      var mouseX := (clientX - view.left) * scaleX;
      var mouseY := (clientY - view.top) * scaleY;
      var cropBoxX := view.buffer.width / 2.0 - crop.width / 2.0;
      var cropBoxY := view.buffer.height / 2.0 - crop.height / 2.0;
      var handleX := cropBoxX + crop.width;
      var handleY := cropBoxY + crop.height;
      var threshold := HandleRadius + HitSlop;
      var squaredDistance := (mouseX - handleX) * (mouseX - handleX) + (mouseY - handleY) * (mouseY - handleY);
      if squaredDistance < threshold * threshold {
        isResizing := true;
        resizeStart := ResizeStart(crop.width, crop.height, clientX, clientY);
      } else if imageLoaded {
        isDragging := true;
        dragStart := Point(clientX - position.x, clientY - position.y);
      }
    }

    method MouseMove(clientX: real, clientY: real, imageLoaded: bool) returns (positionChange: Option<Point>)
      modifies this
      ensures (State(), positionChange) == Move(old(State()), clientX, clientY, imageLoaded)
    {
      positionChange := None;
      if isResizing {
        var deltaX := clientX - resizeStart.mouseX;
        var deltaY := clientY - resizeStart.mouseY;
        tempResize := Size(Max(MinCropSize, resizeStart.width + deltaX),
                           Max(MinCropSize, resizeStart.height + deltaY));
      } else if isDragging && imageLoaded {
        positionChange := Some(Point(clientX - dragStart.x, clientY - dragStart.y));
      }
    }

    /** Mouse-up; mouse-leave runs the same handler. */
    method MouseUp() returns (cropResize: Option<(int, int)>)
      modifies this
      ensures (State(), cropResize) == Release(old(State()))
    {
      cropResize := None;
      if isResizing {
        cropResize := Some((Round(tempResize.width), Round(tempResize.height)));
      }
      isDragging := false;
      isResizing := false;
    }
  }
}
