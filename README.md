# Gallery drag-and-snap engine and range-calendar selection rule

This project models two pieces of logic from a React UI component library and proves
properties of them in Dafny.

**The gallery (carousel).** Module `BaseGallery` (`base_gallery.dfy`) models the
gallery's layout snapshot and shift state, and the arithmetic built on them:
- the clamp of an indent to `[min, max]`;
- the indent that brings a slide into place;
- the rubber-band indent shown while dragging, which divides overscroll by 3;
- the search for the nearest slide on release, with the 5% adjacent-slide threshold;
- the arrow predicates.

The class `BaseGallery.Gallery` holds the layout and shift records and the props.
Its methods are the gesture handlers (`onStartX`, `onMoveX`, `onEnd`), the layout
measurement (`initializeSlides`), the layout and `slideIndex` effects, and the resize
listener. Pixel values are `real`. The DOM measurements and the bounds from
`calcMin`/`calcMax` come in as a `Measurements` value.

**The range calendar.** Module `CalendarRange` (`calendar_range.dfy`) models:
- how a click updates the `[start, end]` value;
- which days are selected, active or hinted;
- the component's own state: the view month, the hinted range and the focused day.

The class `CalendarRange.Picker` holds that state. A date is a day number plus a time
of day in milliseconds. Comparisons such as "is before" use the instant
`day * 86400000 + time`. `startOfDay`/`endOfDay` set the time to the first or last
millisecond of the day. `setTimeEqual(to, from)` keeps `to`'s day and takes `from`'s
time of day when `from` is present. Month arithmetic uses a month index supplied by a
`monthOf` function.

`options.dfy` holds the `Option` type used for the source's `undefined`/`null` values.

Behaviour the code has that may be unexpected:
- **A short drag still changes slide.** With five 200px slides, a 50px leftward drag
  from slide 2 moves to slide 3, even when the drag is slow, taking one second or
  longer (`BaseGallery.ShortDragAdvances`). The 5% threshold is only 10px.
- **The settled shift is not always clamped.** When the release target changes,
  `onEnd` keeps the rubber-banded drag indent as `shiftX`. It stays there until the new
  `slideIndex` prop arrives. In center+custom mode the indent is never clamped. So the
  model does not claim that `min <= shiftX <= max` holds whenever no drag is in progress.
- **A tie between slides goes to the later one.** When two slides are equally near
  on release, the `reduce` in `getTarget` keeps the later index
  (`BaseGallery.IsNearest`).

## Model

| member | source | states |
|---|---|---|
| `BaseGallery.ValidateIndent` | src/components/BaseGallery/BaseGallery.tsx:70-81 | The result is the value, `min` or `max`. When `min <= max` it lies in `[min, max]`, and it equals the value exactly when the value is already in `[min, max]`. |
| `BaseGallery.ValidateIndentIdempotent` | src/components/BaseGallery/BaseGallery.tsx:70-81 | When `min <= max`, clamping twice gives the same result as clamping once. |
| `BaseGallery.ValidateIndentIsNearestBound` | src/components/BaseGallery/BaseGallery.tsx:70-81 | The clamped value is the point of `[min, max]` nearest to the input. |
| `BaseGallery.CalculateIndent` | src/components/BaseGallery/BaseGallery.tsx:86-107 | The indent is 0 when the layout is fully visible or the slide does not exist. Outside center+custom mode it is `validateIndent(-coordX)`. In center+custom mode it is unclamped and puts the slide's centre at the viewport's centre. Outside that mode, with `0` in `[min, max]`, it always lies in `[min, max]`. |
| `BaseGallery.CalculateDragIndent` | src/components/BaseGallery/BaseGallery.tsx:112-124 | Let `i = shiftX + deltaX`. The result is `i` itself inside `[min, max]`. Above `max` it lies strictly between `max` and `i`, with a third of the excursion. Below `min` it lies strictly between `i` and `min`, with a third of the excursion. |
| `BaseGallery.DragIndentIsRubberBand` | src/components/BaseGallery/BaseGallery.tsx:112-124 | When `min <= max`, the drag indent is the clamped indent plus a third of the distance from it to `i`. |
| `BaseGallery.DragIndentMonotonic` | src/components/BaseGallery/BaseGallery.tsx:112-124 | When `min <= max`, a larger `shiftX + deltaX` never gives a smaller drag indent. |
| `BaseGallery.DisplayedIndent` | src/components/BaseGallery/BaseGallery.tsx:298-300 | When not dragging, the layer shows the settled `shiftX`. While dragging inside `[min, max]`, it follows the drag exactly. |
| `BaseGallery.NoJumpWhenDragStarts` | src/components/BaseGallery/BaseGallery.tsx:298-300 | For a state where a delta exists only while dragging (`Gallery.Valid()`), with the settled shift within `[min, max]`: the displayed indent always equals the drag indent. Turning the drag flag on with no movement therefore leaves the layer where it is. |
| `BaseGallery.LayerWidthOfEmptySlides` | src/components/BaseGallery/BaseGallery.tsx:130-144 | Slides that are all zero wide, such as unmounted ones, give a zero layer width. |
| `BaseGallery.LayerWidthEndsAtLastSlide` | src/components/BaseGallery/BaseGallery.tsx:141-144 | For slides laid edge to edge from offset 0, the layer width is the right edge of the last slide. |
| `BaseGallery.MeasureLayout` | src/components/BaseGallery/BaseGallery.tsx:126-165 | The snapshot has one slide per child. A missing element measures `(0, 0)`. A missing root or viewport width is 0. `min` and `max` are taken as given. `layerWidth` is the sum of the slide widths, and `isFullyVisible` holds iff `layerWidth <= containerWidth`. |
| `BaseGallery.UnmountedIsFullyVisible` | src/components/BaseGallery/BaseGallery.tsx:130-164 | With no slide element mounted and a non-negative container width, the layout is fully visible. |
| `BaseGallery.FullyVisibleIffLastSlideFits` | src/components/BaseGallery/BaseGallery.tsx:141-164 | For slides laid edge to edge, the layout is fully visible iff the last slide's right edge fits in the container. |
| `BaseGallery.NearestIsUnique` | src/components/BaseGallery/BaseGallery.tsx:222-232 | At most one index is the nearest slide, counting the later index as nearer on a tie. |
| `BaseGallery.TargetIsUnique` | src/components/BaseGallery/BaseGallery.tsx:212-248 | A release has exactly one target index. |
| `BaseGallery.GetTarget` | src/components/BaseGallery/BaseGallery.tsx:212-248 | The fold returns the slide that minimises `abs(coordX + shift)`, the later one on ties. The shift includes the projected inertia `deltaX / duration * 240 * 0.6` minus `max`. If that slide is `slideIndex` and the neighbour `slideIndex + direction` exists and `abs(deltaX)` exceeds 5% of its width, the result is that neighbour. The result is in range when there are slides, and is `slideIndex` when there are none. |
| `BaseGallery.CanSlideLeft` | src/components/BaseGallery/BaseGallery.tsx:317-319 | The left arrow shows only when the layout overflows. |
| `BaseGallery.CanSlideRight` | src/components/BaseGallery/BaseGallery.tsx:321-328 | When left-aligned, the right arrow shows iff the layout overflows and the layer's trailing edge `shiftX + layerWidth` is past the container. For other alignments, it shows iff the layout overflows and a later slide exists. |
| `BaseGallery.FirstSlideHidesLeftArrow` | src/components/BaseGallery/BaseGallery.tsx:317-319 | Settled on a first slide at offset 0, with `0` in `[min, max]` and outside center+custom mode, the left arrow is hidden. |
| `BaseGallery.RightArrowShownUntilMin` | src/components/BaseGallery/BaseGallery.tsx:321-328 | Left-aligned, with `min = containerWidth - layerWidth`, the right arrow shows exactly while `shiftX > min`. |
| `BaseGallery.ThreeSlidesFit` | src/components/BaseGallery/BaseGallery.tsx:141-164 | Three 100px slides in a 300px container are fully visible, and neither arrow shows. |
| `BaseGallery.ShortDragAdvances` | src/components/BaseGallery/BaseGallery.tsx:212-248 | Five 200px slides, bounds `[-700, 0]`, at slide 2 (indent -400). A 50px leftward drag over at least one second targets slide 3. |
| `BaseGallery.FlickAdvances` | src/components/BaseGallery/BaseGallery.tsx:212-248 | The same layout at slide 0. A 60px leftward drag over 100ms targets slide 1. |
| `BaseGallery.Gallery.constructor` | src/components/BaseGallery/BaseGallery.tsx:21-60 | The instance starts from the default layout (nothing measured, fully visible) and the default shift state (animation undefined). |
| `BaseGallery.Gallery.InitializeSlides` | src/components/BaseGallery/BaseGallery.tsx:126-174 | The layout becomes the new measurement, and `shiftX` becomes `calculateIndent(slideIndex)` on it. `animation` is the given option, or else whether the old `shiftX` was already within the new bounds. Delta and drag flag are unchanged. |
| `BaseGallery.Gallery.OnLayoutChange` | src/components/BaseGallery/BaseGallery.tsx:184-186 | With new `align`/`slideWidth`, the gallery re-measures and settles on the current slide with no animation. |
| `BaseGallery.Gallery.OnResize` | src/components/BaseGallery/BaseGallery.tsx:176-182 | Nothing changes while `animation` is undefined. Otherwise the gallery re-measures and settles with no animation. |
| `BaseGallery.Gallery.OnSlideIndexChange` | src/components/BaseGallery/BaseGallery.tsx:188-197 | Nothing but the prop changes while `animation` is undefined or the index is the same. Otherwise the layer settles, animated and with delta 0, at `calculateIndent(newIndex)`, which is then the displayed indent when not dragging. |
| `BaseGallery.Gallery.OnStart` | src/components/BaseGallery/BaseGallery.tsx:250-252 | Only `animation` changes, to off. |
| `BaseGallery.Gallery.OnMoveX` | src/components/BaseGallery/BaseGallery.tsx:254-271 | `onDragStart` fires iff the gallery is draggable, overflows and the move is horizontal. Only then, and only if the delta differs, do `deltaX` and `dragging` change. Nothing else changes. |
| `BaseGallery.Gallery.OnEnd` | src/components/BaseGallery/BaseGallery.tsx:273-296 | The target is `slideIndex` for a non-slide gesture and otherwise the unique release target. The new state is always not dragging, delta 0 and animated. `shiftX` becomes the drag indent, and `onChange(target)` fires, exactly when the target differs from `slideIndex`. Otherwise the layer springs back to the old `shiftX`. |
| `CalendarRange.GetIsDaySelected` | src/components/CalendarRange/CalendarRange.tsx:40-51 | Nothing is selected when either bound is missing. With both present (start day not after end day), a day is selected iff its day lies between the start day and the end day, inclusive. |
| `CalendarRange.GetNewValue` | src/components/CalendarRange/CalendarRange.tsx:99-118 | With no value the click gives `[date, null]`. A click on the start day or the end day collapses both bounds to that day. Each bound keeps its own time of day, or takes the click's time when that bound was missing. A click before the start replaces the start with the clicked day at the start's time, and keeps the end. A click after the start keeps the start and replaces the end with the clicked day, at the end's time, or at the click's time when there was no end. With no start and no matching end the value is returned unchanged. |
| `CalendarRange.NewValueKeepsOrder` | src/components/CalendarRange/CalendarRange.tsx:105-115 | If the start day is not after the end day before a click, the same holds after it. |
| `CalendarRange.IsDayActive` | src/components/CalendarRange/CalendarRange.tsx:132-139 | An active day needs a value with at least one bound. |
| `CalendarRange.ActiveDayIsSelected` | src/components/CalendarRange/CalendarRange.tsx:127-139 | In an ordered range with both bounds, every active day is selected. |
| `CalendarRange.ClickedDayBecomesActive` | src/components/CalendarRange/CalendarRange.tsx:99-139 | After a click the clicked day is active iff there was no value, or the value had a start, or the click was on its end day. |
| `CalendarRange.HintAfterStart` | src/components/CalendarRange/CalendarRange.tsx:175-188 | Hovering a day after the start (and not on the end day) hints exactly the days from the start day to the hovered day. |
| `CalendarRange.HintBeforeStart` | src/components/CalendarRange/CalendarRange.tsx:175-188 | Hovering a day before the start of a complete range hints exactly the days from the hovered day to the end day. |
| `CalendarRange.Picker.constructor` | src/components/CalendarRange/CalendarRange.tsx:65-67 | The calendar opens on the month of the range's start, or on the current month when there is no start. There is no hint and no focused day. |
| `CalendarRange.Picker.SetPrevMonth` | src/components/CalendarRange/CalendarRange.tsx:70-73 | The view month moves back by exactly one. The new second month is the old view month, and nothing else changes. |
| `CalendarRange.Picker.SetNextMonth` | src/components/CalendarRange/CalendarRange.tsx:74-77 | The view month moves forward by exactly one to the old second month, and nothing else changes. |
| `CalendarRange.Picker.SetViewDate` | src/components/CalendarRange/CalendarRange.tsx:193-200 | The header's month picker sets the view month to that of the chosen date. |
| `CalendarRange.Picker.OnKeyDown` | src/components/CalendarRange/CalendarRange.tsx:79-97 | The focused day becomes the navigation of the old focused day, or else of the range's end. A new focused day always lies in one of the two months shown. When it was outside both, its month becomes the first month shown. Otherwise the view month is unchanged. |
| `CalendarRange.Picker.OnDayChange` | src/components/CalendarRange/CalendarRange.tsx:120-125 | `onChange` receives `getNewValue(date)`, which is ordered. |
| `CalendarRange.Picker.OnDayEnter` | src/components/CalendarRange/CalendarRange.tsx:175-178 | The hinted range becomes `getNewValue(date)`, and nothing else changes. |
| `CalendarRange.Picker.OnDayLeave` | src/components/CalendarRange/CalendarRange.tsx:180-188 | Afterwards no day is hinted, and nothing else changes. |
| `CalendarRange.Picker.ReceiveValue` | src/components/CalendarRange/CalendarRange.tsx:53-67 | A new `value` prop replaces the value and keeps the view month, the hint and the focused day. |
| `CalendarRange.Picker.IsDaySelected` | src/components/CalendarRange/CalendarRange.tsx:127-130 | A day is selected iff the value has both bounds and the day lies between their days. |
| `CalendarRange.Picker.IsDayHinted` | src/components/CalendarRange/CalendarRange.tsx:185-188 | A day is hinted iff the hint has both bounds and the day lies between their days. |

## Left out

- Rendering is not modelled. That covers JSX, class names, the CSS `transform`/`transition` strings, the bullets and the 0.24 s `ANIMATION_DURATION`. `DisplayedIndent` models the value that goes into `translateX`.
- DOM measurement (`offsetLeft`, `offsetWidth`, the refs, `slidesStore`) is not modelled. Its results come in as `Measurements`.
- `calcMax`/`calcMin` (src/components/BaseGallery/helpers) is not part of this model. Their results are inputs, so no property depends on how they are computed. `RightArrowShownUntilMin` states its assumption about `min` as a precondition.
- The touch primitive is not modelled. Its events become `MoveEvent`/`EndEvent` values. `preventDefault`, the global resize listener's registration and `useAdaptivity().hasMouse` are left out too. The arrows also need `showArrows && hasMouse`; only the `canSlideLeft`/`canSlideRight` part is modelled.
- Some callbacks are not modelled. `onDragEnd` and the `onEnd` prop only receive the event or the target, which `OnEnd` returns. `slideLeft`/`slideRight` only forward `slideIndex - 1` or `slideIndex + 1` to `onChange` and call `onPrevClick`/`onNextClick`.
- BaseGallery.Gallery: `isDraggable` is fixed when the instance is built. In the source it is a prop, read by `onMoveX` each time it runs, and may change between renders. A change of that prop is not modelled.
- Pixel arithmetic is exact `real`, not IEEE-754 doubles. `GetTarget` and `Gallery.OnEnd` require a positive gesture duration, because JavaScript would compute Infinity or NaN at `deltaX / duration`.
- `GetTarget` and `Gallery.OnEnd` require `slideIndex` to be in range when there are slides. The source reads `slides[slideIndex].coordX` and would throw otherwise.
- React scheduling is not modelled. Each `setShiftState` updater is applied at once. The layout ref it reads is the one just stored.
- Dates have no time zones or daylight-saving shifts. A day is always 86400000 ms.
- BaseGallery.Gallery.OnEnd, BaseGallery.Gallery.OnMoveX, CalendarRange.Picker.OnKeyDown: the callbacks that fire (`onChange`, `onDragStart`, `navigateDate`) are outputs or parameters. Their side effects on the parent are not modelled.
- CalendarRange.Picker.SetPrevMonth, SetNextMonth, SetViewDate and OnKeyDown keep `viewDate` only as its month index. Its day of month is not modelled, and the month index comes from the supplied `monthOf`.
- CalendarRange.GetIsDaySelected requires an ordered range: date-fns's `isWithinInterval` throws when the interval ends before it starts. This is the only case excluded.
- The value is modelled as a pair only. A `value` array of another length is not modelled.
- `navigateDate` is a parameter of `OnKeyDown` because its implementation is not shown. `isFirstDay`/`isLastDay` are not shown either, so the selection-start/end predicates (`isDaySelectionStart`, `isDaySelectionEnd` and their hinted variants) are left out.
- src/components/CalendarDay/CalendarDay.tsx and src/components/SubnavigationButton/SubnavigationButton.tsx are presentation (class names, labels, focus) and are not part of this model.
