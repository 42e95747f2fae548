/**
 * The full-screen image gallery (components/SlideViewModal.tsx): the shown
 * image's index, the web zoom scale and pan offset, mouse dragging, swipes
 * and keyboard shortcuts.
 */
module SlideView {

  const MinZoom: real := 1.0
  const MaxZoom: real := 3.0
  const ZoomStep: real := 0.5

  /** A pointer position or a pan offset, in pixels. */
  datatype Point = Point(x: real, y: real)

  const Origin := Point(0.0, 0.0)

  function Sub(a: Point, b: Point): Point {
    Point(a.x - b.x, a.y - b.y)
  }

  function Add(a: Point, b: Point): Point {
    Point(a.x + b.x, a.y + b.y)
  }

  // ---------------------------------------------------------------------
  // The pure rules behind the handlers
  // ---------------------------------------------------------------------

  /** `Math.min(z + ZOOM_STEP, MAX_ZOOM)`: one step up, never past the maximum. */
  function ZoomedIn(z: real): (r: real)
    ensures r <= MaxZoom && r <= z + ZoomStep
    ensures r == z + ZoomStep || r == MaxZoom
    ensures z <= MaxZoom ==> z <= r
    ensures MinZoom <= z ==> MinZoom <= r
  {
    if z + ZoomStep < MaxZoom then z + ZoomStep else MaxZoom
  }

  /** `Math.max(z - ZOOM_STEP, MIN_ZOOM)`: one step down, never past the minimum. */
  function ZoomedOut(z: real): (r: real)
    ensures MinZoom <= r && z - ZoomStep <= r
    ensures r == z - ZoomStep || r == MinZoom
    ensures MinZoom <= z ==> r <= z
    ensures z <= MaxZoom ==> r <= MaxZoom
  {
    if z - ZoomStep > MinZoom then z - ZoomStep else MinZoom
  }

  /** Away from the caps, one step in and one step out cancel. */
  lemma ZoomInThenOut(z: real)
    requires MinZoom <= z <= MaxZoom - ZoomStep
    ensures ZoomedOut(ZoomedIn(z)) == z
  {
  }

  /** A zoom button is disabled exactly when pressing it would change nothing. */
  lemma ZoomButtonLimits(z: real)
    requires MinZoom <= z <= MaxZoom
    ensures z >= MaxZoom <==> ZoomedIn(z) == z
    ensures z <= MinZoom <==> ZoomedOut(z) == z
  {
  }

  /** What the end of a swipe does. */
  datatype Swipe = SwipeNext | SwipePrev | SwipeNone

  function Abs(x: real): real {
    if x < 0.0 then -x else x
  }

  /**
   * The swipe decision at gesture end: a swipe longer than `threshold` to the
   * left shows the next image, to the right the previous one, when there is one.
   */
  function SwipeDecision(delta: real, threshold: real, index: int, count: int): (r: Swipe)
    ensures r == SwipeNext <==> Abs(delta) > threshold && delta < 0.0 && index < count - 1
    ensures r == SwipePrev <==> Abs(delta) > threshold && delta > 0.0 && index > 0
    ensures Abs(delta) <= threshold ==> r == SwipeNone
  {
    if Abs(delta) > threshold then
      if delta < 0.0 && index < count - 1 then SwipeNext
      else if delta > 0.0 && index > 0 then SwipePrev
      else SwipeNone
    else SwipeNone
  }

  /** What a key press does while the gallery is shown on the web. */
  datatype KeyAction = ShowPrev | ShowNext | Close | ZoomIn | ZoomOut | NoAction

  function ActionForKey(key: string): (r: KeyAction)
    ensures r == ShowPrev <==> key == "ArrowLeft"
    ensures r == ShowNext <==> key == "ArrowRight"
    ensures r == Close <==> key == "Escape"
    ensures r == ZoomIn <==> key == "+" || key == "="
    ensures r == ZoomOut <==> key == "-"
  {
    if key == "ArrowLeft" then ShowPrev
    else if key == "ArrowRight" then ShowNext
    else if key == "Escape" then Close
    else if key == "+" || key == "=" then ZoomIn
    else if key == "-" then ZoomOut
    else NoAction
  }

  /** The anchor a drag starts from: the pointer minus the current pan. */
  function DragAnchor(pointer: Point, pan: Point): Point {
    Sub(pointer, pan)
  }

  /** The pan while dragging: the pointer minus the anchor. */
  function DraggedPan(pointer: Point, anchor: Point): Point {
    Sub(pointer, anchor)
  }

  /** Dragging moves the image with the pointer: moving by `d` from the start point pans by `d`; moving back to it restores the pan. */
  lemma DragFollowsPointer(start: Point, pan: Point, d: Point)
    ensures DraggedPan(Add(start, d), DragAnchor(start, pan)) == Add(pan, d)
    ensures DraggedPan(start, DragAnchor(start, pan)) == pan
  {
  }

  // ---------------------------------------------------------------------
  // The gallery's state
  // ---------------------------------------------------------------------

  class Gallery {
    const images: seq<string>
    const initialIndex: int
    /** Whether the platform is the web (`Platform.OS === 'web'`). */
    const isWeb: bool
    var visible: bool
    var currentIndex: int
    var zoomScale: real
    var panOffset: Point
    var isDragging: bool
    var dragStart: Point

    /** The zoom stays within its limits in every state. */
    ghost predicate Valid()
      reads this
    {
      MinZoom <= zoomScale <= MaxZoom
    }

    /** The shown index points into `images`. */
    predicate IndexInRange()
      reads this
    {
      0 <= currentIndex < |images|
    }

    constructor(images: seq<string>, initialIndex: int, isWeb: bool, visible: bool)
      ensures Valid()
      ensures this.images == images && this.initialIndex == initialIndex && this.isWeb == isWeb
      ensures this.visible == visible && currentIndex == initialIndex
      ensures zoomScale == MinZoom && panOffset == Origin && !isDragging && dragStart == Origin
    {
      this.images := images;
      this.initialIndex := initialIndex;
      this.isWeb := isWeb;
      this.visible := visible;
      currentIndex := initialIndex;
      zoomScale := MinZoom;
      panOffset := Origin;
      isDragging := false;
      dragStart := Origin;
    }

    /** Nothing is rendered when hidden or without images. */
    predicate Renders()
      reads this
    {
      visible && |images| > 0
    }

    predicate ShowsPrevButton()
      reads this
    {
      currentIndex > 0
    }

    predicate ShowsNextButton()
      reads this
    {
      currentIndex < |images| - 1
    }

    predicate IsMaxZoom()
      reads this
    {
      zoomScale >= MaxZoom
    }

    predicate IsMinZoom()
      reads this
    {
      zoomScale <= MinZoom
    }

    /**
     * A new value of the `visible` prop. The reset effect re-runs only when
     * `visible` changes, and resets index, zoom and pan when it became true;
     * the same value again (a re-render) changes nothing. `initialIndex` is
     * fixed for a gallery, so a re-run on a new `initialIndex` is not part of
     * this model.
     */
    method SetVisible(v: bool)
      requires Valid()
      modifies this`visible, this`currentIndex, this`zoomScale, this`panOffset
      ensures Valid() && visible == v
      ensures Renders() <==> v && |images| > 0
      ensures v && !old(visible) ==> currentIndex == initialIndex && zoomScale == MinZoom && panOffset == Origin
      ensures !(v && !old(visible)) ==>
        currentIndex == old(currentIndex) && zoomScale == old(zoomScale) && panOffset == old(panOffset)
    {
      if v && !visible {
        currentIndex := initialIndex;
        zoomScale := MinZoom;
        panOffset := Origin;
      }
      visible := v;
    }

    /** `handlePrev`: back one image with zoom and pan reset, unless at the first. */
    method Prev()
      requires Valid()
      modifies this`currentIndex, this`zoomScale, this`panOffset
      ensures Valid()
      ensures old(currentIndex) > 0 ==>
        currentIndex == old(currentIndex) - 1 && zoomScale == MinZoom && panOffset == Origin
      ensures old(currentIndex) <= 0 ==>
        currentIndex == old(currentIndex) && zoomScale == old(zoomScale) && panOffset == old(panOffset)
      ensures old(IndexInRange()) ==> IndexInRange()
      ensures old(ShowsPrevButton()) <==> currentIndex != old(currentIndex)
    {
      if currentIndex > 0 {
        currentIndex := currentIndex - 1;
        zoomScale := MinZoom;
        panOffset := Origin;
      }
    }

    /** `handleNext`: forward one image with zoom and pan reset, unless at the last. */
    method Next()
      requires Valid()
      modifies this`currentIndex, this`zoomScale, this`panOffset
      ensures Valid()
      ensures old(currentIndex) < |images| - 1 ==>
        currentIndex == old(currentIndex) + 1 && zoomScale == MinZoom && panOffset == Origin
      ensures old(currentIndex) >= |images| - 1 ==>
        currentIndex == old(currentIndex) && zoomScale == old(zoomScale) && panOffset == old(panOffset)
      ensures old(IndexInRange()) ==> IndexInRange()
      ensures old(ShowsNextButton()) <==> currentIndex != old(currentIndex)
    {
      if currentIndex < |images| - 1 {
        currentIndex := currentIndex + 1;
        zoomScale := MinZoom;
        panOffset := Origin;
      }
    }

    /** `handleZoomIn`; the button is disabled exactly when it would change nothing. */
    method ZoomInStep()
      requires Valid()
      modifies this`zoomScale
      ensures Valid() && zoomScale == ZoomedIn(old(zoomScale))
      ensures old(IsMaxZoom()) <==> zoomScale == old(zoomScale)
    {
      ZoomButtonLimits(zoomScale);
      zoomScale := ZoomedIn(zoomScale);
    }

    /** `handleZoomOut`; the button is disabled exactly when it would change nothing. */
    method ZoomOutStep()
      requires Valid()
      modifies this`zoomScale
      ensures Valid() && zoomScale == ZoomedOut(old(zoomScale))
      ensures old(IsMinZoom()) <==> zoomScale == old(zoomScale)
    {
      ZoomButtonLimits(zoomScale);
      zoomScale := ZoomedOut(zoomScale);
    }

    /** `toggleWebZoom`, which no event of the component invokes: zoomed resets zoom and pan, unzoomed jumps to the maximum; off the web nothing. */
    method ToggleWebZoom()
      requires Valid()
      modifies this`zoomScale, this`panOffset
      ensures Valid()
      ensures isWeb && old(zoomScale) > MinZoom ==> zoomScale == MinZoom && panOffset == Origin
      ensures isWeb && old(zoomScale) <= MinZoom ==> zoomScale == MaxZoom && panOffset == old(panOffset)
      ensures !isWeb ==> zoomScale == old(zoomScale) && panOffset == old(panOffset)
    {
      if isWeb {
        if zoomScale > MinZoom {
          zoomScale := MinZoom;
          panOffset := Origin;
        } else {
          zoomScale := MaxZoom;
        }
      }
    }

    /** `handleDragStart`: only a zoomed image can be dragged; the anchor is pointer minus pan. */
    method DragStart(pointer: Point)
      modifies this`isDragging, this`dragStart
      ensures zoomScale > MinZoom ==> isDragging && dragStart == DragAnchor(pointer, panOffset)
      ensures zoomScale <= MinZoom ==> isDragging == old(isDragging) && dragStart == old(dragStart)
    {
      if zoomScale > MinZoom {
        isDragging := true;
        dragStart := Sub(pointer, panOffset);
      }
    }

    /** `handleDragMove`: while dragging the pan follows the pointer. */
    method DragMove(pointer: Point)
      modifies this`panOffset
      ensures isDragging ==> panOffset == DraggedPan(pointer, dragStart)
      ensures !isDragging ==> panOffset == old(panOffset)
    {
      if isDragging {
        panOffset := Sub(pointer, dragStart);
      }
    }

    /** `handleDragEnd` (mouse up or leave). */
    method DragEnd()
      modifies this`isDragging
      ensures !isDragging
    {
      isDragging := false;
    }

    /** `onPanHandlerStateChange` at the end of a swipe of `delta` pixels; `threshold` is a fifth of the screen width. */
    method SwipeEnd(delta: real, threshold: real)
      requires Valid() && threshold > 0.0
      modifies this`currentIndex, this`zoomScale, this`panOffset
      ensures Valid()
      ensures var s := SwipeDecision(delta, threshold, old(currentIndex), |images|);
        && (s == SwipeNext ==> currentIndex == old(currentIndex) + 1 && zoomScale == MinZoom && panOffset == Origin)
        && (s == SwipePrev ==> currentIndex == old(currentIndex) - 1 && zoomScale == MinZoom && panOffset == Origin)
        && (s == SwipeNone ==> currentIndex == old(currentIndex) && zoomScale == old(zoomScale) && panOffset == old(panOffset))
      ensures old(IndexInRange()) ==> IndexInRange()
    {
      if Abs(delta) > threshold {
        if delta < 0.0 && currentIndex < |images| - 1 {
          Next();
        } else if delta > 0.0 && currentIndex > 0 {
          Prev();
        }
      }
    }

    /**
     * `handleKeyDown`, listening only on the web while visible. Returns
     * whether `onClose` was called.
     */
    method KeyDown(key: string) returns (closed: bool)
      requires Valid()
      modifies this`currentIndex, this`zoomScale, this`panOffset
      ensures Valid()
      ensures closed <==> isWeb && visible && key == "Escape"
      ensures var a := if isWeb && visible then ActionForKey(key) else NoAction;
        && (a == ShowPrev && old(currentIndex) > 0 ==>
              currentIndex == old(currentIndex) - 1 && zoomScale == MinZoom && panOffset == Origin)
        && (a == ShowNext && old(currentIndex) < |images| - 1 ==>
              currentIndex == old(currentIndex) + 1 && zoomScale == MinZoom && panOffset == Origin)
        && (a == ZoomIn ==> currentIndex == old(currentIndex) && zoomScale == ZoomedIn(old(zoomScale)) && panOffset == old(panOffset))
        && (a == ZoomOut ==> currentIndex == old(currentIndex) && zoomScale == ZoomedOut(old(zoomScale)) && panOffset == old(panOffset))
        && ((a == ShowPrev && old(currentIndex) <= 0) || (a == ShowNext && old(currentIndex) >= |images| - 1) ==>
              currentIndex == old(currentIndex) && zoomScale == old(zoomScale) && panOffset == old(panOffset))
        && (a in {Close, NoAction} ==> currentIndex == old(currentIndex) && zoomScale == old(zoomScale) && panOffset == old(panOffset))
      ensures old(IndexInRange()) ==> IndexInRange()
    {
      closed := false;
      if isWeb && visible {
        match ActionForKey(key)
        case ShowPrev => Prev();
        case ShowNext => Next();
        case Close => closed := true;
        case ZoomIn => ZoomInStep();
        case ZoomOut => ZoomOutStep();
        case NoAction =>
      }
    }
  }

  /** Pressing the mouse on a zoomed image and moving back to the same point leaves the pan where it was. */
  method DragRoundTrip(g: Gallery, pointer: Point)
    requires g.zoomScale > MinZoom
    modifies g
    ensures g.panOffset == old(g.panOffset) && g.isDragging
  {
    g.DragStart(pointer);
    g.DragMove(pointer);
  }
}
