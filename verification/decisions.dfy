/** Properties of a single gesture: how the end-of-drag decision depends on
    the displacement, the swipe speed and the threshold. */
module Decisions {
  import opened Drag

  /** For a non-negative sheet height the half-state tests cannot both hold,
      so the order in which they are made does not matter. */
  lemma HalfConditionsExclusive(opts: Options, s: DragState, isFastSwipe: bool)
    requires opts.sheetHeight >= 0.0
    ensures !(ShouldMoveToFull(MetricsOf(opts, s, isFastSwipe)) && ShouldClose(MetricsOf(opts, s, isFastSwipe)))
  {
    var m := MetricsOf(opts, s, isFastSwipe);
    assert m.threshold >= 0.0;
  }

  /** With any negative sheet height the threshold is negative, both
      half-state tests hold for a drag that did not move, and the expand
      test, made first, wins. */
  lemma NegativeHeightOverlap(height: real, s: DragState)
    requires height < 0.0
    ensures var m := Metrics(0.0, false, Threshold(height));
            ShouldMoveToFull(m) && ShouldClose(m)
            && HandleHalfStateDrag(height, m, s) == Outcome(s.(currentState := Full, translateY := 0.0), [])
  {
  }

  /** A drag that ends in an open state leaves the sheet resting at that
      state's snap offset, unless it asked the sheet to close, in which case
      the sheet stays in the half state where the pointer left it. */
  lemma EndDragSettles(opts: Options, s: DragState, isFastSwipe: bool)
    requires s.isDragging && s.currentState != Closed
    ensures var o := EndDrag(opts, s, isFastSwipe);
            if CloseRequested in o.events then
              o.state == s.(isDragging := false) && s.currentState == Half
            else
              o.state.translateY == SnapOffset(opts.sheetHeight, o.state.currentState)
  {
    var stopped := s.(isDragging := false);
    var m := MetricsOf(opts, stopped, isFastSwipe);
    if s.currentState == Half {
      var h := HandleHalfStateDrag(opts.sheetHeight, m, stopped);
      assert CloseRequested in h.events <==> CloseRequested in EndDrag(opts, s, isFastSwipe).events;
    }
  }

  /** For a non-negative height, a fast swipe decides by direction alone: downward it shrinks a full
      sheet and closes a half sheet, upward it expands a half sheet and keeps
      a full sheet full. */
  lemma FastSwipeFollowsDirection(opts: Options, s: DragState)
    requires s.isDragging && opts.sheetHeight >= 0.0
    ensures var o := EndDrag(opts, s, true);
            s.translateY > s.startTranslateY ==>
              (s.currentState == Full ==> o.state.currentState == Half)
              && (s.currentState == Half ==> CloseRequested in o.events && o.state.currentState == Half)
    ensures var o := EndDrag(opts, s, true);
            s.translateY < s.startTranslateY ==>
              (s.currentState == Full ==> o.state.currentState == Full && CloseRequested !in o.events)
              && (s.currentState == Half ==> o.state.currentState == Full && CloseRequested !in o.events)
  {
  }

  /** For a non-negative height, a slow drag decides by the threshold alone: the sheet changes state or
      closes exactly when the offset moved by more than a third of the height
      in the corresponding direction. */
  lemma SlowDragFollowsThreshold(opts: Options, s: DragState)
    requires s.isDragging && opts.sheetHeight >= 0.0
    ensures var o := EndDrag(opts, s, false);
            var d := s.translateY - s.startTranslateY;
            (s.currentState == Full ==> (o.state.currentState == Half <==> 3.0 * d > opts.sheetHeight))
            && (s.currentState == Half ==> (o.state.currentState == Full <==> 3.0 * d < -opts.sheetHeight))
            && (s.currentState == Half ==> (CloseRequested in o.events <==> 3.0 * d > opts.sheetHeight))
  {
    var stopped := s.(isDragging := false);
    var m := MetricsOf(opts, stopped, false);
    assert 3.0 * m.threshold == opts.sheetHeight;
    if s.currentState == Half {
      var h := HandleHalfStateDrag(opts.sheetHeight, m, stopped);
      assert CloseRequested in h.events <==> CloseRequested in EndDrag(opts, s, false).events;
    }
  }

  /** For a non-negative height, pressing and releasing without moving keeps
      the discrete state, fires no callback and leaves the sheet at its snap
      offset. With a negative height a tap expands a half sheet instead (see
      `NegativeHeightOverlap`). */
  lemma TapKeepsState(opts: Options, s: DragState, clientY: real, now: real, isFastSwipe: bool)
    requires opts.sheetHeight >= 0.0 && s.currentState != Closed
    ensures var o := EndDrag(opts, StartDrag(s, clientY, now), isFastSwipe);
            o.state.currentState == s.currentState && o.events == []
            && o.state.translateY == SnapOffset(opts.sheetHeight, s.currentState)
  {
  }

  /** Moving the pointer back to where the drag began restores the offset the
      drag began from, as long as that offset lies inside the sheet. */
  lemma DragBackRestoresOffset(opts: Options, s: DragState)
    requires s.isDragging && 0.0 <= s.startTranslateY <= opts.sheetHeight
    ensures OnDrag(opts, s, s.startY).translateY == s.startTranslateY
  {
  }
}
