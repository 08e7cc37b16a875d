/**
 * The drag-and-snap engine of the gallery (carousel) component.
 *
 * Pixel values are `real`. DOM measurement becomes the `Measurements` input,
 * and the bounds computed by `calcMin` / `calcMax` arrive inside it as `min`
 * and `max`. The `Gallery` class holds the two records the component keeps:
 * the layout snapshot (a ref that `InitializeSlides` overwrites) and the shift
 * state (which every gesture handler replaces through `setShiftState`).
 */
module BaseGallery {
  import opened Options

  datatype Align = Left | Right | Center

  /** `slideWidth` is either the string "custom" or a CSS width such as "100%". */
  datatype SlideWidth = Custom | CssWidth

  /** One slide as measured: its left offset inside the layer and its width. */
  datatype SlideGeometry = SlideGeometry(coordX: real, width: real)

  /** The layout snapshot. */
  datatype Layout = Layout(
    containerWidth: real,
    viewportOffsetWidth: real,
    layerWidth: real,
    min: real,
    max: real,
    slides: seq<SlideGeometry>,
    isFullyVisible: bool)

  /** The snapshot the component starts from, before anything is measured. */
  const DefaultLayout := Layout(0.0, 0.0, 0.0, 0.0, 0.0, [], true)

  /** The source's tri-state `animation`: undefined, true or false. */
  datatype Animation = Uninitialized | Animated | Immediate

  /** The shift state: settled shift, drag delta, drag flag, animation flag. */
  datatype ShiftState = ShiftState(shiftX: real, deltaX: real, dragging: bool, animation: Animation)

  const DefaultShift := ShiftState(0.0, 0.0, false, Uninitialized)

  /** A rendered slide element, when it is mounted. */
  datatype Element = Element(offsetLeft: real, offsetWidth: real)

  /**
   * What one measurement pass reads: the slide elements (one per child, None
   * when the ref is not set), the root and viewport widths (None when the ref is
   * not set), and the bounds that `calcMin` / `calcMax` return for them.
   */
  datatype Measurements = Measurements(
    slideElements: seq<Option<Element>>,
    rootWidth: Option<real>,
    viewportWidth: Option<real>,
    min: real,
    max: real)

  /** The touch primitive's move event: horizontal-slide flag and the offset since start. */
  datatype MoveEvent = MoveEvent(isSlideX: bool, shiftX: real)

  /** The touch primitive's end event: slide flag and gesture duration in milliseconds. */
  datatype EndEvent = EndEvent(isSlide: bool, duration: real)

  function Abs(x: real): (r: real)
    ensures r >= 0.0 && (r == x || r == -x)
  {
    if x < 0.0 then -x else x
  }

  function AnimationOf(animate: bool): Animation {
    if animate then Animated else Immediate
  }

  // ---------------------------------------------------------------------------
  // Indent arithmetic

  /** Clamps an indent to the layout's [min, max]. */
  function ValidateIndent(layout: Layout, value: real): (r: real)
    ensures r == value || r == layout.min || r == layout.max
    ensures layout.min <= layout.max ==> layout.min <= r <= layout.max
    ensures layout.min <= layout.max ==> (r == value <==> layout.min <= value <= layout.max)
  {
    if value < layout.min then layout.min
    else if value > layout.max then layout.max
    else value
  }

  /** Clamping twice is clamping once. */
  lemma ValidateIndentIdempotent(layout: Layout, value: real)
    requires layout.min <= layout.max
    ensures ValidateIndent(layout, ValidateIndent(layout, value)) == ValidateIndent(layout, value)
  {
  }

  /** The clamp is the point of [min, max] nearest to the value. */
  lemma ValidateIndentIsNearestBound(layout: Layout, value: real, x: real)
    requires layout.min <= x <= layout.max
    ensures Abs(value - ValidateIndent(layout, value)) <= Abs(value - x)
  {
  }

  /** The layer's indent that brings slide `targetIndex` into place. */
  function CalculateIndent(layout: Layout, isCenterWithCustomWidth: bool, targetIndex: int): (r: real)
    ensures layout.isFullyVisible || !(0 <= targetIndex < |layout.slides|) ==> r == 0.0
    ensures !layout.isFullyVisible && 0 <= targetIndex < |layout.slides| && !isCenterWithCustomWidth ==>
      r == ValidateIndent(layout, -layout.slides[targetIndex].coordX)
    ensures !layout.isFullyVisible && 0 <= targetIndex < |layout.slides| && isCenterWithCustomWidth ==>
      r + layout.slides[targetIndex].coordX + layout.slides[targetIndex].width / 2.0
        == layout.viewportOffsetWidth / 2.0
    ensures !isCenterWithCustomWidth && layout.min <= 0.0 <= layout.max ==> layout.min <= r <= layout.max
  {
    if layout.isFullyVisible then 0.0
    else if 0 <= targetIndex < |layout.slides| then
      var slide := layout.slides[targetIndex];
      if isCenterWithCustomWidth then layout.viewportOffsetWidth / 2.0 - slide.coordX - slide.width / 2.0
      else ValidateIndent(layout, -1.0 * slide.coordX)
    else 0.0
  }

  /** The indent shown while dragging: overscroll past a bound is divided by 3. */
  function CalculateDragIndent(layout: Layout, shift: ShiftState): (r: real)
    ensures var i := shift.shiftX + shift.deltaX;
      && (layout.min <= i <= layout.max ==> r == i)
      && (i > layout.max ==> layout.max < r < i && 3.0 * (r - layout.max) == i - layout.max)
      && (i < layout.min && i <= layout.max ==> i < r < layout.min && 3.0 * (layout.min - r) == layout.min - i)
  {
    var indent := shift.shiftX + shift.deltaX;
    if indent > layout.max then layout.max + (indent - layout.max) / 3.0
    else if indent < layout.min then layout.min + (indent - layout.min) / 3.0
    else indent
  }

  /** The rubber band moves a third of the way from the clamped indent towards the raw one. */
  lemma DragIndentIsRubberBand(layout: Layout, shift: ShiftState)
    requires layout.min <= layout.max
    ensures var i := shift.shiftX + shift.deltaX;
      var c := ValidateIndent(layout, i);
      CalculateDragIndent(layout, shift) == c + (i - c) / 3.0
  {
  }

  /** Dragging further never moves the layer back: the drag indent is monotonic. */
  lemma DragIndentMonotonic(layout: Layout, s1: ShiftState, s2: ShiftState)
    requires layout.min <= layout.max
    requires s1.shiftX + s1.deltaX <= s2.shiftX + s2.deltaX
    ensures CalculateDragIndent(layout, s1) <= CalculateDragIndent(layout, s2)
  {
  }

  /** The indent applied to the layer: the drag indent while dragging, the settled shift otherwise. */
  function DisplayedIndent(layout: Layout, shift: ShiftState): (r: real)
    ensures !shift.dragging ==> r == shift.shiftX
    ensures shift.dragging && layout.min <= shift.shiftX + shift.deltaX <= layout.max ==>
      r == shift.shiftX + shift.deltaX
  {
    if shift.dragging then CalculateDragIndent(layout, shift) else shift.shiftX
  }

  /**
   * For a state that keeps `Gallery.Valid()`'s rule (a delta only while
   * dragging) and a settled shift within the bounds, the layer always shows the
   * drag indent; so turning the drag flag on with no movement does not make it jump.
   */
  lemma NoJumpWhenDragStarts(layout: Layout, shift: ShiftState)
    requires !shift.dragging ==> shift.deltaX == 0.0
    requires layout.min <= shift.shiftX <= layout.max
    ensures DisplayedIndent(layout, shift) == CalculateDragIndent(layout, shift)
    ensures DisplayedIndent(layout, shift.(dragging := true)) == DisplayedIndent(layout, shift)
  {
  }

  // ---------------------------------------------------------------------------
  // Layout measurement

  /** Total width of the slides, folded left to right as the source's `reduce` does. */
  function LayerWidth(slides: seq<SlideGeometry>): real {
    if |slides| == 0 then 0.0
    else slides[|slides| - 1].width + LayerWidth(slides[..|slides| - 1])
  }

  /** Slides that are all zero wide (all unmounted) make a zero-wide layer. */
  lemma {:induction false} LayerWidthOfEmptySlides(slides: seq<SlideGeometry>)
    requires forall k :: 0 <= k < |slides| ==> slides[k].width == 0.0
    ensures LayerWidth(slides) == 0.0
    decreases |slides|
  {
    if |slides| > 0 {
      LayerWidthOfEmptySlides(slides[..|slides| - 1]);
    }
  }

  /** Slides laid edge to edge from offset 0. */
  predicate Contiguous(slides: seq<SlideGeometry>) {
    && (|slides| > 0 ==> slides[0].coordX == 0.0)
    && forall k :: 0 < k < |slides| ==> slides[k].coordX == slides[k - 1].coordX + slides[k - 1].width
  }

  /** For slides laid edge to edge, the layer ends where the last slide ends. */
  lemma {:induction false} LayerWidthEndsAtLastSlide(slides: seq<SlideGeometry>)
    requires |slides| > 0 && Contiguous(slides)
    ensures LayerWidth(slides) == slides[|slides| - 1].coordX + slides[|slides| - 1].width
    decreases |slides|
  {
    var n := |slides|;
    if n > 1 {
      var prefix := slides[..n - 1];
      assert Contiguous(prefix);
      LayerWidthEndsAtLastSlide(prefix);
    } else {
      assert slides[..0] == [];
    }
  }

  /** The snapshot's derived fields agree with its slides and container. */
  predicate LayoutConsistent(layout: Layout) {
    && layout.layerWidth == LayerWidth(layout.slides)
    && (layout.isFullyVisible <==> layout.layerWidth <= layout.containerWidth)
  }

  function MeasureSlide(element: Option<Element>): (s: SlideGeometry)
    ensures element.None? ==> s == SlideGeometry(0.0, 0.0)
  {
    match element
    case Some(e) => SlideGeometry(e.offsetLeft, e.offsetWidth)
    case None => SlideGeometry(0.0, 0.0)
  }

  /** The layout snapshot `initializeSlides` stores for one measurement pass. */
  function MeasureLayout(m: Measurements): (r: Layout)
    ensures LayoutConsistent(r)
    ensures |r.slides| == |m.slideElements|
    ensures forall k :: 0 <= k < |r.slides| ==> r.slides[k] == MeasureSlide(m.slideElements[k])
    ensures r.containerWidth == m.rootWidth.GetOr(0.0) && r.viewportOffsetWidth == m.viewportWidth.GetOr(0.0)
    ensures r.min == m.min && r.max == m.max
  {
    var slides := seq(|m.slideElements|, k requires 0 <= k < |m.slideElements| => MeasureSlide(m.slideElements[k]));
    var containerWidth := m.rootWidth.GetOr(0.0);
    var layerWidth := LayerWidth(slides);
    Layout(containerWidth, m.viewportWidth.GetOr(0.0), layerWidth, m.min, m.max, slides, layerWidth <= containerWidth)
  }

  /** With nothing mounted, the gallery degrades to a fully visible, non-scrolling layout. */
  lemma UnmountedIsFullyVisible(m: Measurements)
    requires forall k :: 0 <= k < |m.slideElements| ==> m.slideElements[k].None?
    requires m.rootWidth.GetOr(0.0) >= 0.0
    ensures MeasureLayout(m).isFullyVisible
  {
    LayerWidthOfEmptySlides(MeasureLayout(m).slides);
  }

  /** For slides laid edge to edge, all fit iff the last slide's right edge fits the container. */
  lemma FullyVisibleIffLastSlideFits(layout: Layout)
    requires LayoutConsistent(layout) && |layout.slides| > 0 && Contiguous(layout.slides)
    ensures var last := layout.slides[|layout.slides| - 1];
      layout.isFullyVisible <==> last.coordX + last.width <= layout.containerWidth
  {
    LayerWidthEndsAtLastSlide(layout.slides);
  }

  // ---------------------------------------------------------------------------
  // Choosing the slide to settle on after a drag

  /** How far slide `s` would be from the layer's origin at the projected shift. */
  function Distance(s: SlideGeometry, shift: real): real {
    Abs(s.coordX + shift)
  }

  /** The shift the release is projected to, with a velocity-based overshoot. */
  function ProjectedShift(layout: Layout, state: ShiftState, duration: real): real
    requires duration > 0.0
  {
    var expectDeltaX := state.deltaX / duration * 240.0 * 0.6;
    state.shiftX + state.deltaX + expectDeltaX - layout.max
  }

  /** The neighbour a drag points to: the next slide for a leftward drag, else the previous. */
  function Direction(state: ShiftState): int {
    if state.deltaX < 0.0 then 1 else -1
  }

  /**
   * `k` is the nearest slide to the projected shift; among equally near
   * slides it is the last, as the fold keeps the later index on a tie.
   */
  predicate IsNearest(slides: seq<SlideGeometry>, shift: real, k: int) {
    && 0 <= k < |slides|
    && (forall j :: 0 <= j < |slides| ==> Distance(slides[k], shift) <= Distance(slides[j], shift))
    && (forall j :: k < j < |slides| ==> Distance(slides[k], shift) < Distance(slides[j], shift))
  }

  /** The drag moved farther than 5% of the neighbour's width, and that neighbour exists. */
  predicate PassesThreshold(layout: Layout, state: ShiftState, slideIndex: int) {
    var neighbour := slideIndex + Direction(state);
    && 0 <= neighbour < |layout.slides|
    && Abs(state.deltaX) > layout.slides[neighbour].width * 0.05
  }

  /** The slide a release settles on. */
  predicate IsTarget(layout: Layout, state: ShiftState, slideIndex: int, duration: real, target: int)
    requires duration > 0.0
  {
    var shift := ProjectedShift(layout, state, duration);
    if |layout.slides| == 0 then target == slideIndex
    else if IsNearest(layout.slides, shift, slideIndex) && PassesThreshold(layout, state, slideIndex) then
      target == slideIndex + Direction(state)
    else IsNearest(layout.slides, shift, target)
  }

  lemma NearestIsUnique(slides: seq<SlideGeometry>, shift: real, k1: int, k2: int)
    requires IsNearest(slides, shift, k1) && IsNearest(slides, shift, k2)
    ensures k1 == k2
  {
    assert Distance(slides[k1], shift) == Distance(slides[k2], shift);
  }

  /** A release has exactly one target. */
  lemma TargetIsUnique(layout: Layout, state: ShiftState, slideIndex: int, duration: real, t1: int, t2: int)
    requires duration > 0.0
    requires IsTarget(layout, state, slideIndex, duration, t1)
    requires IsTarget(layout, state, slideIndex, duration, t2)
    ensures t1 == t2
  {
    var shift := ProjectedShift(layout, state, duration);
    if |layout.slides| > 0 && !(IsNearest(layout.slides, shift, slideIndex) && PassesThreshold(layout, state, slideIndex)) {
      NearestIsUnique(layout.slides, shift, t1, t2);
    }
  }

  /** The source's `getTarget`: a fold for the nearest slide, then the 5% tie-break. */
  method GetTarget(layout: Layout, state: ShiftState, slideIndex: int, duration: real) returns (targetIndex: int)
    requires duration > 0.0
    requires |layout.slides| > 0 ==> 0 <= slideIndex < |layout.slides|
    ensures IsTarget(layout, state, slideIndex, duration, targetIndex)
    ensures |layout.slides| > 0 ==> 0 <= targetIndex < |layout.slides|
    ensures |layout.slides| == 0 ==> targetIndex == slideIndex
  {
    var slides := layout.slides;
    var shift := ProjectedShift(layout, state, duration);
    var direction := Direction(state);

    targetIndex := slideIndex;
    var index := 0;
    while index < |slides|
      invariant 0 <= index <= |slides|
      invariant |slides| == 0 ==> targetIndex == slideIndex
      invariant |slides| > 0 ==> 0 <= targetIndex < |slides|
      invariant targetIndex >= index ==> targetIndex == slideIndex
      invariant |slides| > 0 ==> Distance(slides[targetIndex], shift) <= Distance(slides[slideIndex], shift)
      invariant forall j :: 0 <= j < index ==> Distance(slides[targetIndex], shift) <= Distance(slides[j], shift)
      invariant forall j :: 0 <= j && targetIndex < j < index ==> Distance(slides[targetIndex], shift) < Distance(slides[j], shift)
    {
      var previousValue := Abs(slides[targetIndex].coordX + shift);
      var currentValue := Abs(slides[index].coordX + shift);
      targetIndex := if previousValue < currentValue then targetIndex else index;
      index := index + 1;
    }

    if targetIndex == slideIndex {
      var targetSlide := slideIndex + direction;
      if 0 <= targetSlide < |slides| {
        if Abs(state.deltaX) > slides[targetSlide].width * 0.05 {
          targetIndex := targetSlide;
        }
      }
    }
  }

  // ---------------------------------------------------------------------------
  // Arrow affordances

  /** The left arrow: content overflows and the layer is shifted left of its origin. */
  function CanSlideLeft(layout: Layout, shift: ShiftState): (r: bool)
    ensures r ==> !layout.isFullyVisible
  {
    !layout.isFullyVisible && shift.shiftX < 0.0
  }

  /** The right arrow: content overflows and there is more to the right. */
  function CanSlideRight(layout: Layout, shift: ShiftState, align: Align, slideIndex: int): (r: bool)
    ensures r ==> !layout.isFullyVisible
    ensures align == Left ==> (r <==> !layout.isFullyVisible && shift.shiftX + layout.layerWidth > layout.containerWidth)
    ensures align != Left ==> (r <==> !layout.isFullyVisible && slideIndex + 1 < |layout.slides|)
  {
    !layout.isFullyVisible
    && ((align == Left && layout.containerWidth - shift.shiftX < layout.layerWidth)
        || (align != Left && slideIndex < |layout.slides| - 1))
  }

  /** Settled on a first slide at offset 0 (outside center+custom mode), the left arrow is hidden. */
  lemma FirstSlideHidesLeftArrow(layout: Layout, shift: ShiftState)
    requires |layout.slides| > 0 && layout.slides[0].coordX == 0.0
    requires layout.min <= 0.0 <= layout.max
    requires shift.shiftX == CalculateIndent(layout, false, 0)
    ensures !CanSlideLeft(layout, shift)
  {
  }

  /**
   * Left-aligned, with `min` at the layer's full scroll, the right arrow shows
   * exactly while the layer has not reached `min`.
   */
  lemma RightArrowShownUntilMin(layout: Layout, shift: ShiftState, slideIndex: int)
    requires !layout.isFullyVisible
    requires layout.min == layout.containerWidth - layout.layerWidth
    ensures CanSlideRight(layout, shift, Left, slideIndex) <==> shift.shiftX > layout.min
  {
  }

  // ---------------------------------------------------------------------------
  // The component instance

  class Gallery {
    var align: Align
    var slideWidth: SlideWidth
    const isDraggable: bool
    /** The controlled `slideIndex` prop; the component only requests changes to it. */
    var slideIndex: int
    var layout: Layout
    var shift: ShiftState

    /** The snapshot is self-consistent, and a drag delta exists only while dragging. */
    ghost predicate Valid()
      reads this
    {
      && LayoutConsistent(layout)
      && (!shift.dragging ==> shift.deltaX == 0.0)
    }

    constructor (align: Align, slideWidth: SlideWidth, isDraggable: bool, slideIndex: int)
      ensures Valid()
      ensures this.align == align && this.slideWidth == slideWidth
      ensures this.isDraggable == isDraggable && this.slideIndex == slideIndex
      ensures layout == DefaultLayout && shift == DefaultShift
    {
      this.align := align;
      this.slideWidth := slideWidth;
      this.isDraggable := isDraggable;
      this.slideIndex := slideIndex;
      layout := DefaultLayout;
      shift := DefaultShift;
    }

    function IsCenterWithCustomWidth(): bool
      reads this
    {
      slideWidth == Custom && align == Center
    }

    /** Re-measures, then settles the shift on the current slide. */
    method InitializeSlides(m: Measurements, animation: Option<bool>)
      requires Valid()
      modifies this
      ensures Valid()
      ensures layout == MeasureLayout(m)
      ensures shift == old(shift).(
        shiftX := CalculateIndent(layout, IsCenterWithCustomWidth(), slideIndex),
        animation := AnimationOf(animation.GetOr(old(shift.shiftX) == ValidateIndent(layout, old(shift.shiftX)))))
      ensures align == old(align) && slideWidth == old(slideWidth) && slideIndex == old(slideIndex)
    {
      layout := MeasureLayout(m);
      var animate := animation.GetOr(shift.shiftX == ValidateIndent(layout, shift.shiftX));
      shift := shift.(shiftX := CalculateIndent(layout, IsCenterWithCustomWidth(), slideIndex),
                      animation := AnimationOf(animate));
    }

    /** The layout effect: runs on mount and whenever the children, `align` or `slideWidth` change. */
    method OnLayoutChange(newAlign: Align, newSlideWidth: SlideWidth, m: Measurements)
      requires Valid()
      modifies this
      ensures Valid()
      ensures align == newAlign && slideWidth == newSlideWidth && slideIndex == old(slideIndex)
      ensures layout == MeasureLayout(m)
      ensures shift == old(shift).(
        shiftX := CalculateIndent(layout, IsCenterWithCustomWidth(), slideIndex),
        animation := Immediate)
    {
      align := newAlign;
      slideWidth := newSlideWidth;
      InitializeSlides(m, Some(false));
    }

    /** The window's resize listener: re-measures without animation, once initialized. */
    method OnResize(m: Measurements)
      requires Valid()
      modifies this
      ensures Valid()
      ensures align == old(align) && slideWidth == old(slideWidth) && slideIndex == old(slideIndex)
      ensures old(shift.animation) == Uninitialized ==> layout == old(layout) && shift == old(shift)
      ensures old(shift.animation) != Uninitialized ==>
        && layout == MeasureLayout(m)
        && shift == old(shift).(
             shiftX := CalculateIndent(layout, IsCenterWithCustomWidth(), slideIndex),
             animation := Immediate)
    {
      if shift.animation != Uninitialized {
        InitializeSlides(m, Some(false));
      }
    }

    /** A new `slideIndex` prop; the effect settles on it, animated, once initialized. */
    method OnSlideIndexChange(newIndex: int)
      requires Valid()
      modifies this
      ensures Valid()
      ensures slideIndex == newIndex
      ensures layout == old(layout) && align == old(align) && slideWidth == old(slideWidth)
      ensures newIndex == old(slideIndex) || old(shift.animation) == Uninitialized ==> shift == old(shift)
      ensures newIndex != old(slideIndex) && old(shift.animation) != Uninitialized ==>
        shift == old(shift).(
          animation := Animated,
          deltaX := 0.0,
          shiftX := CalculateIndent(layout, IsCenterWithCustomWidth(), newIndex))
      ensures newIndex != old(slideIndex) && old(shift.animation) != Uninitialized && !shift.dragging ==>
        DisplayedIndent(layout, shift) == CalculateIndent(layout, IsCenterWithCustomWidth(), newIndex)
    {
      var changed := newIndex != slideIndex;
      slideIndex := newIndex;
      if changed && shift.animation != Uninitialized {
        shift := shift.(animation := Animated, deltaX := 0.0,
                        shiftX := CalculateIndent(layout, IsCenterWithCustomWidth(), newIndex));
      }
    }

    /** A touch starts: transitions are switched off so the layer follows the finger. */
    method OnStart()
      requires Valid()
      modifies this
      ensures Valid()
      ensures shift == old(shift).(animation := Immediate)
      ensures layout == old(layout) && slideIndex == old(slideIndex)
      ensures align == old(align) && slideWidth == old(slideWidth)
    {
      shift := shift.(animation := Immediate);
    }

    /**
     * A horizontal move. Returns whether `onDragStart` fires. Only the drag
     * delta and the drag flag can change, and only for a draggable,
     * overflowing gallery, a horizontal slide, and a delta that differs.
     */
    method OnMoveX(e: MoveEvent) returns (dragStarted: bool)
      requires Valid()
      modifies this
      ensures Valid()
      ensures dragStarted <==> isDraggable && !layout.isFullyVisible && e.isSlideX
      ensures if dragStarted && old(shift.deltaX) != e.shiftX
        then shift == old(shift).(deltaX := e.shiftX, dragging := true)
        else shift == old(shift)
      ensures layout == old(layout) && slideIndex == old(slideIndex)
      ensures align == old(align) && slideWidth == old(slideWidth)
    {
      dragStarted := false;
      if isDraggable && !layout.isFullyVisible {
        if e.isSlideX {
          dragStarted := true;
          if shift.deltaX != e.shiftX {
            shift := shift.(deltaX := e.shiftX, dragging := e.isSlideX);
          }
        }
      }
    }

    /**
     * The touch ends. Returns the target passed to `onEnd` and the index
     * passed to `onChange`, if it fires. When the target changes, the layer
     * stays where the drag left it until the new `slideIndex` arrives;
     * otherwise it springs back to the settled shift.
     */
    method OnEnd(e: EndEvent) returns (targetIndex: int, change: Option<int>)
      requires Valid()
      requires e.isSlide ==> e.duration > 0.0
      requires e.isSlide && |layout.slides| > 0 ==> 0 <= slideIndex < |layout.slides|
      modifies this
      ensures Valid()
      ensures !e.isSlide ==> targetIndex == slideIndex
      ensures e.isSlide ==> IsTarget(layout, old(shift), slideIndex, e.duration, targetIndex)
      ensures change == if targetIndex != slideIndex then Some(targetIndex) else None
      ensures shift == ShiftState(
        if targetIndex != slideIndex then CalculateDragIndent(layout, old(shift)) else old(shift.shiftX),
        0.0, false, Animated)
      ensures targetIndex != slideIndex ==> DisplayedIndent(layout, shift) == CalculateDragIndent(layout, old(shift))
      ensures targetIndex == slideIndex ==> DisplayedIndent(layout, shift) == old(shift.shiftX)
      ensures layout == old(layout) && slideIndex == old(slideIndex)
      ensures align == old(align) && slideWidth == old(slideWidth)
    {
      if e.isSlide {
        targetIndex := GetTarget(layout, shift, slideIndex, e.duration);
      } else {
        targetIndex := slideIndex;
      }

      var nextShiftState := shift.(animation := Animated, dragging := false, deltaX := 0.0);
      var shiftXStick := CalculateDragIndent(layout, shift);
      if targetIndex != slideIndex {
        nextShiftState := nextShiftState.(shiftX := shiftXStick);
      }
      shift := nextShiftState;

      change := if targetIndex != slideIndex then Some(targetIndex) else None;
    }
  }

  // ---------------------------------------------------------------------------
  // Worked scenarios

  function Slides(n: nat, width: real): (s: seq<SlideGeometry>)
    ensures |s| == n
    ensures forall k :: 0 <= k < n ==> s[k] == SlideGeometry(k as real * width, width)
  {
    seq(n, k requires 0 <= k < n => SlideGeometry(k as real * width, width))
  }

  /** Three 100-wide slides in a 300-wide container fit, and neither arrow shows. */
  lemma ThreeSlidesFit(shift: ShiftState, align: Align, slideIndex: int)
    ensures var m := Measurements(
        [Some(Element(0.0, 100.0)), Some(Element(100.0, 100.0)), Some(Element(200.0, 100.0))],
        Some(300.0), Some(300.0), 0.0, 0.0);
      var layout := MeasureLayout(m);
      && layout.isFullyVisible
      && !CanSlideLeft(layout, shift)
      && !CanSlideRight(layout, shift, align, slideIndex)
  {
    var m := Measurements(
      [Some(Element(0.0, 100.0)), Some(Element(100.0, 100.0)), Some(Element(200.0, 100.0))],
      Some(300.0), Some(300.0), 0.0, 0.0);
    var layout := MeasureLayout(m);
    assert layout.slides == Slides(3, 100.0);
    assert Contiguous(layout.slides);
    FullyVisibleIffLastSlideFits(layout);
  }

  /** Five 200-wide slides in a 300-wide container, bounds [-700, 0]. */
  function FiveSlideLayout(): Layout {
    Layout(300.0, 300.0, 1000.0, -700.0, 0.0, Slides(5, 200.0), false)
  }

  /** At slide 2 a 50px leftward drag passes the 10px threshold and moves on to slide 3. */
  lemma ShortDragAdvances(duration: real)
    requires duration >= 1000.0
    ensures LayoutConsistent(FiveSlideLayout())
    ensures CalculateIndent(FiveSlideLayout(), false, 2) == -400.0
    ensures IsTarget(FiveSlideLayout(), ShiftState(-400.0, -50.0, true, Immediate), 2, duration, 3)
  {
    var layout := FiveSlideLayout();
    var state := ShiftState(-400.0, -50.0, true, Immediate);
    LayerWidthEndsAtLastSlide(layout.slides);
    var shift := ProjectedShift(layout, state, duration);
    assert -50.0 / duration >= -0.05 by {
      assert -50.0 / duration * duration == -50.0;
    }
    assert -457.2 <= shift <= -450.0;
    forall j | 0 <= j < 5
      ensures Distance(layout.slides[2], shift) <= Distance(layout.slides[j], shift)
      ensures 2 < j ==> Distance(layout.slides[2], shift) < Distance(layout.slides[j], shift)
    {
      assert j == 0 || j == 1 || j == 2 || j == 3 || j == 4;
    }
    assert IsNearest(layout.slides, shift, 2);
    assert PassesThreshold(layout, state, 2);
  }

  /** From slide 0, a 60px leftward flick over 100ms settles on slide 1. */
  lemma FlickAdvances()
    ensures CalculateIndent(FiveSlideLayout(), false, 0) == 0.0
    ensures IsTarget(FiveSlideLayout(), ShiftState(0.0, -60.0, true, Immediate), 0, 100.0, 1)
  {
    var layout := FiveSlideLayout();
    var state := ShiftState(0.0, -60.0, true, Immediate);
    var shift := ProjectedShift(layout, state, 100.0);
    assert shift == -146.4;
    forall j | 0 <= j < 5
      ensures Distance(layout.slides[1], shift) <= Distance(layout.slides[j], shift)
      ensures 1 < j ==> Distance(layout.slides[1], shift) < Distance(layout.slides[j], shift)
    {
      assert j == 0 || j == 1 || j == 2 || j == 3 || j == 4;
    }
    assert IsNearest(layout.slides, shift, 1);
    assert !IsNearest(layout.slides, shift, 0);
  }
}
