/** The drag-gesture state machine of the bottom sheet (`useDrag`).

    The composable keeps one mutable `DragState`; here every handler is a pure
    function from the old state to the new one. The two callbacks of the
    composable, `onClose` and the optional `onStateChange`, are not called but
    recorded, in order, as a list of `Event`s returned beside the new state. */
module Drag {
  import opened Clamp

  /** The discrete positions of the sheet. `Closed` belongs to the type of the
      state, but no handler ever assigns it. */
  datatype Sheet = Closed | Half | Full

  /** The reactive state of one sheet. Offsets are measured downward from the
      fully open position, so `translateY == 0` is fully open. */
  datatype DragState = DragState(
    isDragging: bool,
    startY: real,
    startTranslateY: real,
    startTime: real,
    translateY: real,
    currentState: Sheet)

  /** The configuration passed to `useDrag`. `onClose` is always present, the
      state-change callback may be absent. */
  datatype Options = Options(sheetHeight: real, hasStateChangeHandler: bool)

  /** One callback invocation. */
  datatype Event = CloseRequested | StateChanged(state: Sheet)

  /** The measurements the end-of-drag decision is made from. */
  datatype Metrics = Metrics(deltaY: real, isFastSwipe: bool, threshold: real)

  /** A new state together with the callbacks fired while producing it. */
  datatype Outcome = Outcome(state: DragState, events: seq<Event>)

  /** The state a sheet is created with: idle, fully open offset, half state. */
  const Initial: DragState := DragState(false, 0.0, 0.0, 0.0, 0.0, Half)

  /** The offset at which the sheet rests in each open state. No handler
      ever rests the sheet in the closed state, so the value given for it is
      arbitrary and no contract depends on it. */
  function SnapOffset(height: real, sheet: Sheet): real {
    match sheet
    case Full => 0.0
    case Half => height / 2.0
    case Closed => height
  }

  /** How many times `e` occurs in `events`. */
  function Occurrences(events: seq<Event>, e: Event): nat {
    multiset(events)[e]
  }

  /** The fields that describe the gesture in progress, as opposed to the
      sheet's position, agree in `s` and `t`. */
  predicate SameGesture(s: DragState, t: DragState) {
    s.isDragging == t.isDragging && s.startY == t.startY
    && s.startTranslateY == t.startTranslateY && s.startTime == t.startTime
  }

  /** The swipe threshold: a third of the sheet height. */
  function Threshold(height: real): (t: real)
    ensures 3.0 * t == height
    ensures height >= 0.0 ==> 0.0 <= t <= height
  {
    height / 3.0
  }

  /** The decision metrics for the drag in `s`. The displacement is that of the
      sheet offset since the drag started, not that of the pointer; whether the
      swipe was fast comes from the wall clock and is taken as given. */
  function MetricsOf(opts: Options, s: DragState, isFastSwipe: bool): (m: Metrics)
    ensures m.deltaY > 0.0 <==> s.translateY > s.startTranslateY
    ensures m.deltaY < 0.0 <==> s.translateY < s.startTranslateY
    ensures opts.sheetHeight >= 0.0 ==> m.threshold >= 0.0
    ensures 3.0 * m.threshold == opts.sheetHeight
  {
    Metrics(s.translateY - s.startTranslateY, isFastSwipe, Threshold(opts.sheetHeight))
  }

  /** A downward move from the full state that shrinks the sheet to half.
      A slow drag is judged by the threshold alone, a fast swipe (for a
      non-negative threshold) by its direction alone. */
  function ShouldMoveToHalf(m: Metrics): (b: bool)
    ensures !m.isFastSwipe ==> (b <==> m.deltaY > m.threshold)
    ensures m.isFastSwipe && m.threshold >= 0.0 ==> (b <==> m.deltaY > 0.0)
  {
    m.deltaY > m.threshold || (m.isFastSwipe && m.deltaY > 0.0)
  }

  /** An upward move from the half state that expands the sheet. A slow drag
      is judged by the threshold alone, a fast swipe (for a non-negative
      threshold) by its direction alone. */
  function ShouldMoveToFull(m: Metrics): (b: bool)
    ensures !m.isFastSwipe ==> (b <==> m.deltaY < -m.threshold)
    ensures m.isFastSwipe && m.threshold >= 0.0 ==> (b <==> m.deltaY < 0.0)
  {
    m.deltaY < -m.threshold || (m.isFastSwipe && m.deltaY < 0.0)
  }

  /** A downward move from the half state that asks for the sheet to close:
      the same test that shrinks a full sheet. */
  function ShouldClose(m: Metrics): (b: bool)
    ensures b <==> ShouldMoveToHalf(m)
    ensures m.threshold >= 0.0 && b ==> m.deltaY > 0.0
  {
    m.deltaY > m.threshold || (m.isFastSwipe && m.deltaY > 0.0)
  }

  /** End of a drag that began in the full state: shrink to half, or snap back
      fully open. No callback fires here. */
  function HandleFullStateDrag(height: real, m: Metrics, s: DragState): (r: DragState)
    ensures SameGesture(s, r)
    ensures ShouldMoveToHalf(m) ==> r.currentState == Half
    ensures !ShouldMoveToHalf(m) ==> r.currentState == s.currentState
    ensures s.currentState == Full ==> r.translateY == SnapOffset(height, r.currentState)
  {
    if ShouldMoveToHalf(m) then
      s.(currentState := Half, translateY := height / 2.0)
    else
      s.(translateY := 0.0)
  }

  /** End of a drag that began in the half state: expand to full, ask to
      close, or snap back to half. The expand test is made first. */
  function HandleHalfStateDrag(height: real, m: Metrics, s: DragState): (o: Outcome)
    ensures SameGesture(s, o.state)
    ensures Occurrences(o.events, CloseRequested) == (if !ShouldMoveToFull(m) && ShouldClose(m) then 1 else 0)
    ensures |o.events| == Occurrences(o.events, CloseRequested)
    ensures CloseRequested in o.events ==> o.state == s
    ensures ShouldMoveToFull(m) ==> o.state.currentState == Full
    ensures !ShouldMoveToFull(m) ==> o.state.currentState == s.currentState
    ensures s.currentState == Half && CloseRequested !in o.events
            ==> o.state.translateY == SnapOffset(height, o.state.currentState)
  {
    if ShouldMoveToFull(m) then
      Outcome(s.(currentState := Full, translateY := 0.0), [])
    else if ShouldClose(m) then
      Outcome(s, [CloseRequested])
    else
      Outcome(s.(translateY := height / 2.0), [])
  }

  /** Dispatches on the current state and then reports a change of the
      discrete state to the state-change callback, if there is one. A state
      other than full or half falls through unchanged. */
  function HandleStateTransition(opts: Options, m: Metrics, s: DragState): (o: Outcome)
    ensures SameGesture(s, o.state)
    ensures s.currentState == Closed ==> o == Outcome(s, [])
    ensures o.state.currentState == Closed <==> s.currentState == Closed
    ensures Occurrences(o.events, StateChanged(o.state.currentState))
            == (if opts.hasStateChangeHandler && o.state.currentState != s.currentState then 1 else 0)
    ensures forall e :: e in o.events && e.StateChanged? ==> e.state == o.state.currentState
    ensures |o.events| <= 1
  {
    var prev := s.currentState;
    var handled :=
      match s.currentState
      case Full => Outcome(HandleFullStateDrag(opts.sheetHeight, m, s), [])
      case Half => HandleHalfStateDrag(opts.sheetHeight, m, s)
      case Closed => Outcome(s, []);
    var stateChanged := prev != handled.state.currentState;
    if stateChanged && opts.hasStateChangeHandler then
      Outcome(handled.state, handled.events + [StateChanged(handled.state.currentState)])
    else
      handled
  }

  /** Pointer down on the handle: record where the drag begins. Neither the
      offset nor the discrete state moves. */
  function StartDrag(s: DragState, clientY: real, now: real): (r: DragState)
    ensures r.isDragging
    ensures r.startY == clientY && r.startTime == now
    ensures r.startTranslateY == s.translateY
    ensures r.translateY == s.translateY && r.currentState == s.currentState
  {
    s.(isDragging := true, startY := clientY, startTranslateY := s.translateY, startTime := now)
  }

  /** Pointer move: while dragging, the offset follows the pointer from where
      the drag began, clamped into the sheet. */
  function OnDrag(opts: Options, s: DragState, clientY: real): (r: DragState)
    ensures !s.isDragging ==> r == s
    ensures s.isDragging ==> SameGesture(s, r) && r.currentState == s.currentState
    ensures s.isDragging ==> r.translateY == ClampOffset(opts.sheetHeight, s.startTranslateY + (clientY - s.startY))
    ensures s.isDragging ==> 0.0 <= r.translateY
    ensures s.isDragging && opts.sheetHeight >= 0.0 ==> r.translateY <= opts.sheetHeight
  {
    if !s.isDragging then s
    else
      var deltaY := clientY - s.startY;
      var newTranslateY := s.startTranslateY + deltaY;
      s.(translateY := ClampOffset(opts.sheetHeight, newTranslateY))
  }

  /** Pointer up: stop dragging and settle the sheet. Does nothing when no
      drag is in progress. */
  function EndDrag(opts: Options, s: DragState, isFastSwipe: bool): (o: Outcome)
    ensures !s.isDragging ==> o == Outcome(s, [])
    ensures s.isDragging ==> !o.state.isDragging
    ensures s.isDragging ==> SameGesture(s.(isDragging := false), o.state)
    ensures s.isDragging ==>
              Occurrences(o.events, StateChanged(o.state.currentState))
              == (if opts.hasStateChangeHandler && o.state.currentState != s.currentState then 1 else 0)
    ensures forall e :: e in o.events && e.StateChanged? ==> e.state == o.state.currentState && e.state != s.currentState
    ensures o.state.currentState == Closed <==> s.currentState == Closed
    ensures |o.events| <= 1
  {
    if !s.isDragging then Outcome(s, [])
    else
      var stopped := s.(isDragging := false);
      HandleStateTransition(opts, MetricsOf(opts, stopped, isFastSwipe), stopped)
  }
}
