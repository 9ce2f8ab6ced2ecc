# Horizontal scroll widget — Dafny model

This project models the `Scroll` class of the horizontal-scroll widget as a
deterministic state machine over one instance. The widget moves a strip of
items sideways. It responds to the mouse wheel, to click-and-drag, and to
optional left/right control buttons.

The instance's state is:

- `marginLeft`, the offset;
- `lastWheel`, the optional timestamp of the previous offset-engine call;
- the animation flag;
- the optional drag record `{startX, prevX, x}`;
- the two "hidden" flags of the controls;
- the offset last written to the inner element's style.

Its configuration is `maxMarginLeft`, `wheelInterval`, `controls.enabled`,
the two control elements and `controls.pace`. Inputs are a list of events:
wheel, mouse-down, mouse-move, mouse-up and control click. Every change of
the offset goes through the offset engine `onWheel(pixels, wheel,
withAnimation)`, modelled as `Scroll.OnWheel`. Mouse-down never calls it, and
ignored moves, releases and clicks return before reaching it.

Modules:

- `Wrappers`: `Option` and `Result`.
- `ScrollOptions`: the defaults and the two-level option merge of the constructor.
- `Geometry`: `maxMarginLeft` from measured boxes.
- `Scroll`: the state, the events, the offset engine, the mouse handlers,
  the control sync, the dispatch `Step`, the initial state and construction.
- `ScrollRuns`: `Run` over event lists, and the properties that span several events.
- `ScrollScenarios`: the demo page's configuration and two worked examples.

Behaviour of the code that is easy to misread:

- The wheel filter compares the clock against the previous call of the
  offset engine. That call may have been rejected, a drag step or a control
  click. It is not the last *accepted* wheel event, because the timestamp is
  written before the filter (js/horizontal-scroll.js:87).
- Mouse-up applies only the delta from the last tracked `x` to the release
  point, not the total drag distance. The total comes out by telescoping
  (`ScrollRuns.DragNetOffset`).
- The position is written to `style.marginLeft` as `-<offset>px`, not to a
  transform. The left control is hidden when `!(marginLeft > 0)`.
- `checkWhetherControl` parses as `(enabled && el === left) || el === right`.

## Model

| member | source | states |
|---|---|---|
| ScrollOptions.MergeControls | js/horizontal-scroll.js:7-10 | each of `enabled`, `left`, `right` and `pace` the caller gives wins; an absent key, or an absent `controls` object, keeps the default |
| ScrollOptions.Merge | js/horizontal-scroll.js:4-11 | fails exactly when no options object is passed; otherwise each given key (class names, divider, interval) wins over `Scroll.defaults`, and within a given `controls` object each of `enabled`, `left`, `right` and `pace` wins over the default controls |
| ScrollOptions.MergeEmptyIsDefaults | js/horizontal-scroll.js:296-308 | an empty options object merges to the defaults: class names, divider 0.5, interval 20, controls disabled, pace 100 |
| ScrollOptions.MergeSpelledRoundTrip | js/horizontal-scroll.js:4-11 | merging options that spell out every key returns those options unchanged |
| ScrollOptions.ControlsMergeIndependently | js/horizontal-scroll.js:7-10 | a `controls` object without `pace` still merges to pace 100 |
| Geometry.Measure | js/horizontal-scroll.js:63-75 | with no item, measuring fails. Otherwise the span runs from the first item's left edge to the last item's right edge. `maxMarginLeft` is the span less the width of the inner wrapper's own box, floored at 0, and is 0 exactly when the content fits in that box |
| Geometry.ContiguousSpanIsTotalWidth | js/horizontal-scroll.js:70 | for side-by-side items the measured span equals the sum of the item widths |
| Geometry.NarrowContentIsUnscrollable | js/horizontal-scroll.js:71-74 | content no wider than the inner wrapper's own box gives `maxMarginLeft == 0` |
| Scroll.NewMarginLeft | js/horizontal-scroll.js:89-104 | a negative delta is floored at 0 only and a non-negative one capped at the maximum only. From an in-bounds offset this equals the two-sided clamp, and an unclamped move is exact |
| Scroll.UpdateControls | js/horizontal-scroll.js:220-245 | with controls enabled, left hidden iff offset <= 0 and right hidden iff offset == max; disabled leaves the state untouched; nothing but the two flags changes |
| Scroll.OnWheel | js/horizontal-scroll.js:77-131 | unscrollable: no change at all. Otherwise the timestamp is always set to `now`. A wheel call that would not move, or comes less than `wheelInterval` after the previous call, changes nothing else. Non-wheel calls are never filtered. An accepted call commits the clamped offset, writes it, sets the animation flag to withAnimation OR wheel and re-syncs the controls. The bounds are preserved |
| Scroll.OnMouseDown | js/horizontal-scroll.js:133-147 | only the primary button starts a drag, with start, previous and current x at the press point; nothing else changes |
| Scroll.OnMouseMove | js/horizontal-scroll.js:167-178 | with no drag, nothing changes. During a drag, `prevX` takes the old x and x takes the pointer, even when the engine rejected or clamped. The offset moves by old x minus pointer x, clamped, without animation |
| Scroll.OnMouseUp | js/horizontal-scroll.js:149-165 | with no drag, or with a non-primary button, nothing changes, so the drag stays active. A primary release on a scrollable widget applies last x minus release x without animation and refreshes the timestamp; any primary release empties the drag record |
| Scroll.ControlDelta | js/horizontal-scroll.js:209-213 | the left control's delta is negative, the right one's positive, both of magnitude `pace` |
| Scroll.IsControl | js/horizontal-scroll.js:187-191 | the right element always counts as a control; the left one only when controls are enabled |
| Scroll.Step | js/horizontal-scroll.js:180-218 | non-primary presses and releases, targets that count as controls, moves and releases without a drag, and clicks on disabled controls change nothing; a wheel event never touches the drag and is a wheel call of the engine: committed and animated when it passes the filter, otherwise only the timestamp moves; every event preserves the invariant (offset in bounds, style equal to offset, controls in sync) |
| Scroll.Init | js/horizontal-scroll.js:247-269 | the constructed state satisfies the invariant: offset 0, no timestamp, no drag, no animation; with controls enabled the left control starts hidden and the right one hidden iff the widget cannot scroll |
| Scroll.Create | js/horizontal-scroll.js:1-23 | construction fails without an options object, fails without items, and fails when controls are enabled without both elements. Otherwise the configuration carries the merged interval, controls flag, elements and pace and the measured maximum, and the state is the initial one: offset 0, no timestamp, no drag, controls set up |
| ScrollRuns.RunPreservesValid | js/horizontal-scroll.js:77-131 | every sequence of inputs keeps the offset in `[0, maxMarginLeft]`, the written style equal to it and the controls in sync |
| ScrollRuns.ReachableStatesAreValid | js/horizontal-scroll.js:25-35 | every state reachable from construction is valid and in bounds |
| ScrollRuns.UnscrollableRunChangesOnlyDrag | js/horizontal-scroll.js:81-83 | when `maxMarginLeft == 0`, no input sequence changes anything but the drag record |
| ScrollRuns.RapidWheelBurstIsRejected | js/horizontal-scroll.js:78-118 | a burst of wheel events with no gap of `wheelInterval` is rejected in full: only the timestamp moves, to the last event's time |
| ScrollRuns.SpacedWheelIsAccepted | js/horizontal-scroll.js:106-118 | a wheel event at least `wheelInterval` after the previous call (an event exactly `wheelInterval` later passes), or with no previous call, is accepted and animated whenever it moves the offset |
| ScrollRuns.ControlClickDelaysWheel | js/horizontal-scroll.js:87 | a control click refreshes the timestamp, so a wheel event less than `wheelInterval` later is discarded |
| ScrollRuns.ControlClickMoves | js/horizontal-scroll.js:214-217 | on a scrollable widget (`maxMarginLeft > 0`) with controls enabled a click always moves the offset by `±pace`, clamped, animated, and the controls re-sync |
| ScrollRuns.DragTracksPointer | js/horizontal-scroll.js:167-178 | during a drag with no clamped step the offset stays `base - x` for the tracked x, without animation |
| ScrollRuns.DragNetOffset | js/horizontal-scroll.js:133-178 | press at `x0`, moves, release at `xr`, with no step clamped: the offset changes by exactly `x0 - xr`, unanimated, and the drag record is empty |
| ScrollRuns.IgnoredMouseEvents | js/horizontal-scroll.js:136-160 | any sequence of non-primary presses and releases, and moves or releases without a drag, leaves the whole state unchanged |
| ScrollScenarios.DemoPageScenario | index.php:42-49 | 14 items of 200 px in an inner box 800 px wide give a maximum of 2000. With pace 500 one right click gives 500 with both controls shown. Four more reach 2000 and hide the right control, and a further click stays at 2000 |
| ScrollScenarios.WheelDebounceScenario | js/horizontal-scroll.js:106-118 | wheel events at 0 ms and 10 ms with a 20 ms interval leave the offset where the first one put it |
| ScrollScenarios.DragScenario | js/horizontal-scroll.js:149-178 | a drag from x = 100 to x = 60 scrolls 40 pixels further, unanimated, and ends the drag |

## Left out

- DOM restructuring (`createInnerElement`, `createOuterElement`, `moveContents`, `renderControls*`) and class-name strings on elements are not modelled. Visibility and animation are booleans.
- Scroll.Create: class names are taken to be valid tokens. `classList.add` throws on an empty name or one containing whitespace, so such an `outerClass`, `innerClass`, `leftControlClass` or `rightControlClass` makes the constructor throw, and such an `animatedClass` makes every accepted wheel or control call throw after the timestamp write and before the commit. Neither throw is modelled.
- Pointer coordinates (`pageX`) are integers; the fractional values the browser may report are not modelled.
- `getBoundingClientRect`: the boxes are integer inputs of `Geometry.Measure`. Fractional pixel values are not modelled.
- The wheel conversion `deltaY / deltaDivider` is floating point, so the wheel delta is an integer input. `deltaDivider` is kept in the options only.
- `Date.now()` is an input `now` on each event that reaches the engine. The two clock reads inside one `onWheel` call are taken as the same value.
- `console.log` of a rejected call, `addEventListener`, `preventDefault` and `stopPropagation` are event-loop plumbing. Events are a sequential list, and a `MouseDown` event is one the inner element's listener receives.
- Scroll.OnWheel: the remove-then-add of the animation class within one call is not modelled. Only the resulting flag is kept, because the removal is not observable between events.
- CSS transitions and the visual lag while one runs are not modelled.
- ScrollOptions.Merge: a key given with the value `undefined` would override the default with `undefined`. That case is not modelled; an absent key is `None`.
- Scroll.ControlDelta: `pace` is a natural number. A negative pace makes the left delta `+"--n"`, which is NaN, and NaN offsets are not modelled.
- The left and right controls being the same element is not modelled: control clicks name their side.
- The listeners of a constructor that throws stay registered on a half-built instance. Their later behaviour is not modelled.
- The unused `data.clicked`, `mouse.prevTime` and `setUpControl`'s local `selector` are not modelled: nothing reads them.
