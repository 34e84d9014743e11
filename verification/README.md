# Bottom-sheet drag gesture, modelled in Dafny

This project models `useDrag`, the composable behind a mobile-style bottom
sheet. The sheet rests either half open or fully open. The user drags it by a
handle. When the pointer is released, the composable decides whether the
sheet grows to full, shrinks to half, asks its owner to close it (the
`onClose` callback), or snaps back where it was. It reports every change of
its discrete state through the optional `onStateChange` callback.

The composable's one mutable `DragState` is modelled here as an immutable
datatype. Each handler is a pure function from the old state to the new one.
The handlers that may fire callbacks also return the list of callback
invocations they make, in order.

- `clamp.dfy`, module `Clamp`: the offset clamp `Math.max(0, Math.min(sheetHeight, y))`.
- `drag.dfy`, module `Drag`: the state, the decision metrics, `startDrag`,
  `onDrag`, `endDrag`, `handleStateTransition`, `handleFullStateDrag` and
  `handleHalfStateDrag`.
- `decisions.dfy`, module `Decisions`: facts about one gesture. These cover
  fast versus slow swipes, the threshold, resting offsets and a tap.
- `session.dfy`, module `Session`: any sequence of pointer events delivered
  to the handlers, starting from the state a sheet is created with. It
  states what holds of every reachable state and of the whole stream of
  callbacks.

JavaScript numbers are modelled as exact `real`s. The model does not compute
whether a swipe was fast from the clock: `EndDrag` takes it as a boolean.
The time at which a drag starts is a parameter of `StartDrag`. The pointer's
vertical position is a plain `real`.

Two behaviours of `useDrag` are easy to misread; the model follows the code:

- The state type includes `closed`, but no handler ever assigns it. On the
  close path (`src/composables/useDrag.ts:117-118`) the composable only calls
  `onClose`: the sheet stays in the half state, with its offset wherever the
  pointer left it. Closing is up to the owner of the sheet.
- The displacement used at release (`src/composables/useDrag.ts:36`) is not
  the pointer's movement. It is the movement of the sheet offset since the
  drag began (`translateY - startTranslateY`), taken after clamping.

## Model

| member | source | states |
|---|---|---|
| Clamp.ClampOffset | src/composables/useDrag.ts:144-146 | the offset is never negative and, for a non-negative height, never above the height; an offset already in range is kept; it is the point of `[0, height]` nearest the proposed one; a negative height gives 0 |
| Clamp.ClampIdempotent | src/composables/useDrag.ts:145 | clamping an already clamped offset changes nothing, for every height |
| Clamp.ClampMonotone | src/composables/useDrag.ts:145 | a lower proposed offset never clamps to a higher one |
| Drag.MetricsOf | src/composables/useDrag.ts:35-43 | the displacement is positive (negative) exactly when the sheet moved down (up) since the drag began; the threshold is a third of the height and not negative for a non-negative height |
| Drag.Threshold | src/composables/useDrag.ts:40 | three thresholds make the sheet height; for a non-negative height the threshold lies within `[0, height]` |
| Drag.ShouldMoveToHalf | src/composables/useDrag.ts:91 | a slow drag shrinks a full sheet iff it moved down by more than the threshold; a fast swipe (non-negative threshold) iff it moved down at all |
| Drag.ShouldMoveToFull | src/composables/useDrag.ts:110 | a slow drag expands a half sheet iff it moved up by more than the threshold; a fast swipe (non-negative threshold) iff it moved up at all |
| Drag.ShouldClose | src/composables/useDrag.ts:111 | the close test of the half state is the shrink test of the full state; for a non-negative threshold it only passes for a downward move |
| Drag.HandleFullStateDrag | src/composables/useDrag.ts:87-100 | a downward move past the threshold, or a fast downward swipe, gives the half state; otherwise the discrete state is kept; from full the sheet rests at the offset of the state it ends in; the gesture fields are untouched |
| Drag.HandleHalfStateDrag | src/composables/useDrag.ts:106-122 | an upward move past the threshold, or a fast upward swipe, gives full; otherwise a downward one fires `onClose` exactly once and leaves the state exactly as it was; nothing else fires; from half, when no close is asked, the sheet rests at its state's offset |
| Drag.HandleStateTransition | src/composables/useDrag.ts:68-81 | `onStateChange` fires exactly once, with the new state, iff a handler is given and the discrete state changed; no other state is reported; at most one callback fires; a closed state falls through with no change and nothing fired; the state is closed afterwards only if it was before |
| Drag.StartDrag | src/composables/useDrag.ts:128-136 | dragging begins, the pointer position and start time are recorded, and the start offset is the current offset; the offset and discrete state do not move |
| Drag.OnDrag | src/composables/useDrag.ts:138-147 | with no drag in progress nothing changes; while dragging the offset is the start offset plus the pointer's movement, clamped into `[0, sheetHeight]`, and nothing else changes |
| Drag.EndDrag | src/composables/useDrag.ts:149-155 | with no drag in progress nothing changes and nothing fires; otherwise dragging stops, where and when the drag began is kept, and `onStateChange` fires once iff a handler is given and the discrete state changed; any reported state is the new one and differs from the old; at most one callback fires |
| Decisions.HalfConditionsExclusive | src/composables/useDrag.ts:110-111 | for a non-negative height, the expand test and the close test of the half state never both hold |
| Decisions.NegativeHeightOverlap | src/composables/useDrag.ts:110-117 | for every negative height and every state, a drag that did not move passes both half-state tests; the expand test, checked first, wins and the sheet goes to full at offset 0 |
| Decisions.EndDragSettles | src/composables/useDrag.ts:87-122 | after a release from an open state, either close was asked, the sheet is in half and only dragging stopped, or the sheet rests at its state's offset |
| Decisions.FastSwipeFollowsDirection | src/composables/useDrag.ts:87-122 | for a non-negative height, a fast swipe down shrinks full to half and closes half; a fast swipe up keeps full and expands half to full, without closing |
| Decisions.SlowDragFollowsThreshold | src/composables/useDrag.ts:36-40 | for a non-negative height and for a slow drag, full shrinks iff the offset moved down by more than a third of the height; half expands iff it moved up by more than that; half closes iff it moved down by more than that |
| Decisions.TapKeepsState | src/composables/useDrag.ts:128-155 | for a non-negative height, pressing and releasing without moving keeps the discrete state, fires nothing and rests the sheet at its state's offset |
| Decisions.DragBackRestoresOffset | src/composables/useDrag.ts:141-146 | when the start offset lies inside the sheet, moving the pointer back to where the drag began restores it |
| Session.Apply | src/composables/useDrag.ts:128-163 | a press (delivered to `startDrag` by the sheet's owner) always starts a drag from the current offset; moves and releases reach `onDrag` and `endDrag` as registered, and change nothing with no drag in progress; only a release fires callbacks, at most one, and it ends the drag |
| Session.ApplyPreservesReachable | src/composables/useDrag.ts:157-163 | each handler keeps the sheet open; for a non-negative height it keeps the current and start offsets inside the sheet |
| Session.EndDragSettlesInSheet | src/composables/useDrag.ts:149-155 | a release keeps a reachable state reachable |
| Session.RunPreservesReachable | src/composables/useDrag.ts:26-33 | any sequence of pointer events keeps a reachable state reachable |
| Session.NeverClosed | src/composables/useDrag.ts:26-33 | from the initial state, whatever the events, the discrete state is never closed; for a non-negative height the offset stays within `[0, sheetHeight]` |
| Session.CallbacksPerRelease | src/composables/useDrag.ts:149-155 | over any sequence of events there are no more callbacks, `onClose` calls included, than releases |
| Session.ApplyReportsChange | src/composables/useDrag.ts:78-79 | with a state-change handler, one handler call reports exactly the new state, once, when it changed the discrete state, and reports nothing otherwise |
| Session.FlipsChain | src/composables/useDrag.ts:70-79 | over any sequence of events, the states after each change of the discrete state each differ from the one before and from the starting state first, and the last is the final state |
| Session.RunReportsEveryChange | src/composables/useDrag.ts:78-79 | with a state-change handler, over any sequence of events, the reported states are exactly the states after each event that changed the discrete state, in order; so they alternate and the last is the final state |
| Session.NoHandlerNoReports | src/composables/useDrag.ts:79 | without a state-change handler no state is ever reported |

## Left out

- Velocity: the composable computes it from `performance.now()` as `Math.abs(deltaY / dt)` and compares it with 0.5. That is wall-clock time and floating-point division, which gives NaN or Infinity when `dt` is 0. The model takes the resulting "fast swipe" flag as an input to `EndDrag`.
- `disableUserSelect`, `enableUserSelect` and `preventSelectDuringDrag`: side effects on the document body's style and on DOM events, with no state of the drag involved.
- Reading `clientY` from a mouse or touch event (including `e.touches[0]` for touches): the position is a plain `real` parameter.
- Vue reactivity: `reactive` state and the cached `computed` metrics. The metrics are always recomputed from the current state.
- Callbacks that act back on the sheet: `useDrag` hands its mutable `state` to the owner (`src/composables/useDrag.ts:165-166`), and `onClose` runs before the state change is computed. The model treats the callbacks as inert events. It assumes they neither write the returned `state` nor call `startDrag`, `onDrag` or `endDrag`. An `onClose` that set the state to `closed` would make the composable report `closed` and break `Session.NeverClosed`.
- Floating-point rounding, NaN and infinities: numbers are exact reals.
- `src/composables/useEventListeners.ts`: registering and removing DOM listeners on mount and unmount is not part of this model. `Session` assumes events arrive in any order while the sheet is mounted.
- `src/composables/useResizeObserver.ts`: a wrapper over the browser's size observer, not part of this model.
