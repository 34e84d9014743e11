/** A sheet's whole life: the pointer events the document delivers to the
    handlers, in order, starting from the state the sheet is created with.
    Pointer down reaches `StartDrag`; pointer and touch moves reach `OnDrag`;
    pointer up and touch end reach `EndDrag`. */
module Session {
  import opened Drag

  /** One pointer event, with what the handler reads from it. The clock and
      the speed of the swipe are taken as given. */
  datatype Input =
    | PointerDown(clientY: real, now: real)
    | PointerMove(clientY: real)
    | PointerUp(isFastSwipe: bool)

  /** Delivers one event to its handler. A press always starts a drag; a
      move or a release with no drag in progress changes nothing; only a
      release fires callbacks, at most one, and it ends the drag. */
  function Apply(opts: Options, s: DragState, i: Input): (o: Outcome)
    ensures i.PointerDown? ==> o.state.isDragging && o.state.startTranslateY == s.translateY && o.events == []
    ensures !s.isDragging && !i.PointerDown? ==> o == Outcome(s, [])
    ensures i.PointerMove? ==> o.events == [] && o.state.currentState == s.currentState
    ensures i.PointerUp? ==> !o.state.isDragging && |o.events| <= 1
  {
    match i
    case PointerDown(y, now) => Outcome(StartDrag(s, y, now), [])
    case PointerMove(y) => Outcome(OnDrag(opts, s, y), [])
    case PointerUp(fast) => EndDrag(opts, s, fast)
  }

  /** Delivers the events in order; the callbacks fired are collected in the
      order they fire. */
  function Run(opts: Options, s: DragState, inputs: seq<Input>): Outcome
    decreases |inputs|
  {
    if |inputs| == 0 then Outcome(s, [])
    else
      var first := Apply(opts, s, inputs[0]);
      var rest := Run(opts, first.state, inputs[1..]);
      Outcome(rest.state, first.events + rest.events)
  }

  /** The number of releases among `inputs`. */
  function Releases(inputs: seq<Input>): nat
    decreases |inputs|
  {
    if |inputs| == 0 then 0
    else (if inputs[0].PointerUp? then 1 else 0) + Releases(inputs[1..])
  }

  /** The discrete state after each event that changed it, in order: what a
      state-change callback ought to receive, read off the states alone. */
  function Flips(opts: Options, s: DragState, inputs: seq<Input>): seq<Sheet>
    decreases |inputs|
  {
    if |inputs| == 0 then []
    else
      var next := Apply(opts, s, inputs[0]).state;
      (if next.currentState != s.currentState then [next.currentState] else [])
      + Flips(opts, next, inputs[1..])
  }

  /** The states reported to the state-change callback, in order. */
  function Changes(events: seq<Event>): seq<Sheet>
    decreases |events|
  {
    if |events| == 0 then []
    else (if events[0].StateChanged? then [events[0].state] else []) + Changes(events[1..])
  }

  /** Starting at `start`, each reported state differs from the one before
      it, and the last one reported (or `start`, when none is) is `final`. */
  predicate ChangeChain(start: Sheet, cs: seq<Sheet>, final: Sheet)
    decreases |cs|
  {
    if |cs| == 0 then start == final
    else cs[0] != start && ChangeChain(cs[0], cs[1..], final)
  }

  /** What holds of every state a sheet can reach: it is open, and for a
      non-negative height both the current offset and the offset the drag
      began from lie inside the sheet. */
  predicate Reachable(height: real, s: DragState) {
    s.currentState != Closed
    && (height >= 0.0 ==> 0.0 <= s.translateY <= height && 0.0 <= s.startTranslateY <= height)
  }

  lemma ChangesAppend(a: seq<Event>, b: seq<Event>)
    ensures Changes(a + b) == Changes(a) + Changes(b)
    decreases |a|
  {
    if |a| != 0 {
      assert (a + b)[1..] == a[1..] + b;
      ChangesAppend(a[1..], b);
    } else {
      assert a + b == b;
    }
  }

  lemma {:induction false} ChangeChainAppend(a: Sheet, x: seq<Sheet>, b: Sheet, y: seq<Sheet>, c: Sheet)
    requires ChangeChain(a, x, b) && ChangeChain(b, y, c)
    ensures ChangeChain(a, x + y, c)
    decreases |x|
  {
    if |x| != 0 {
      assert (x + y)[0] == x[0];
      assert (x + y)[1..] == x[1..] + y;
      ChangeChainAppend(x[0], x[1..], b, y, c);
    } else {
      assert x + y == y;
    }
  }

  /** Every handler keeps a reachable state reachable. */
  lemma ApplyPreservesReachable(opts: Options, s: DragState, i: Input)
    requires Reachable(opts.sheetHeight, s)
    ensures Reachable(opts.sheetHeight, Apply(opts, s, i).state)
  {
    if i.PointerUp? && s.isDragging {
      EndDragSettlesInSheet(opts, s, i.isFastSwipe);
    }
  }

  lemma EndDragSettlesInSheet(opts: Options, s: DragState, isFastSwipe: bool)
    requires s.isDragging && Reachable(opts.sheetHeight, s)
    ensures Reachable(opts.sheetHeight, EndDrag(opts, s, isFastSwipe).state)
  {
    var stopped := s.(isDragging := false);
    var m := MetricsOf(opts, stopped, isFastSwipe);
    if s.currentState == Half {
      var h := HandleHalfStateDrag(opts.sheetHeight, m, stopped);
      assert h.state == EndDrag(opts, s, isFastSwipe).state;
    }
  }

  /** Any sequence of events keeps a reachable state reachable. */
  lemma {:induction false} RunPreservesReachable(opts: Options, s: DragState, inputs: seq<Input>)
    requires Reachable(opts.sheetHeight, s)
    ensures Reachable(opts.sheetHeight, Run(opts, s, inputs).state)
    decreases |inputs|
  {
    if |inputs| != 0 {
      ApplyPreservesReachable(opts, s, inputs[0]);
      RunPreservesReachable(opts, Apply(opts, s, inputs[0]).state, inputs[1..]);
    }
  }

  /** The sheet is never in the closed state and, for a non-negative height,
      its offset never leaves `[0, height]`, whatever the events. */
  lemma NeverClosed(opts: Options, inputs: seq<Input>)
    ensures Run(opts, Initial, inputs).state.currentState != Closed
    ensures opts.sheetHeight >= 0.0 ==> 0.0 <= Run(opts, Initial, inputs).state.translateY <= opts.sheetHeight
  {
    RunPreservesReachable(opts, Initial, inputs);
  }

  /** Only releases fire callbacks, and each fires at most one; in particular
      the close callback fires at most once per release. */
  lemma {:induction false} CallbacksPerRelease(opts: Options, s: DragState, inputs: seq<Input>)
    ensures |Run(opts, s, inputs).events| <= Releases(inputs)
    decreases |inputs|
  {
    if |inputs| != 0 {
      var first := Apply(opts, s, inputs[0]);
      CallbacksPerRelease(opts, first.state, inputs[1..]);
    }
  }

  /** One handler call reports the state change it makes, once, and
      nothing else. */
  lemma ApplyReportsChange(opts: Options, s: DragState, i: Input)
    requires opts.hasStateChangeHandler
    ensures var o := Apply(opts, s, i);
            Changes(o.events) == (if o.state.currentState != s.currentState then [o.state.currentState] else [])
  {
  }


  /** The state changes of any run alternate: each differs from the one
      before, the first from the starting state, and the last is the state
      the sheet ends in. */
  lemma {:induction false} FlipsChain(opts: Options, s: DragState, inputs: seq<Input>)
    ensures ChangeChain(s.currentState, Flips(opts, s, inputs), Run(opts, s, inputs).state.currentState)
    decreases |inputs|
  {
    if |inputs| != 0 {
      var next := Apply(opts, s, inputs[0]).state;
      var here := if next.currentState != s.currentState then [next.currentState] else [];
      FlipsChain(opts, next, inputs[1..]);
      assert ChangeChain(s.currentState, here, next.currentState) by {
        if |here| != 0 {
          assert here[1..] == [];
        }
      }
      ChangeChainAppend(s.currentState, here, next.currentState,
                        Flips(opts, next, inputs[1..]), Run(opts, s, inputs).state.currentState);
    }
  }

  /** With a state-change callback, it receives exactly the state changes of
      the run, each once, in order; so the states it receives alternate and
      the last one is the state the sheet ends in. */
  lemma {:induction false} RunReportsEveryChange(opts: Options, s: DragState, inputs: seq<Input>)
    requires opts.hasStateChangeHandler
    ensures Changes(Run(opts, s, inputs).events) == Flips(opts, s, inputs)
    ensures ChangeChain(s.currentState, Changes(Run(opts, s, inputs).events), Run(opts, s, inputs).state.currentState)
    decreases |inputs|
  {
    if |inputs| != 0 {
      var first := Apply(opts, s, inputs[0]);
      var rest := Run(opts, first.state, inputs[1..]);
      ApplyReportsChange(opts, s, inputs[0]);
      RunReportsEveryChange(opts, first.state, inputs[1..]);
      ChangesAppend(first.events, rest.events);
    }
    FlipsChain(opts, s, inputs);
  }

  /** Without a state-change callback no state is ever reported. */
  lemma {:induction false} NoHandlerNoReports(opts: Options, s: DragState, inputs: seq<Input>)
    requires !opts.hasStateChangeHandler
    ensures Changes(Run(opts, s, inputs).events) == []
    decreases |inputs|
  {
    if |inputs| != 0 {
      var first := Apply(opts, s, inputs[0]);
      var rest := Run(opts, first.state, inputs[1..]);
      NoHandlerNoReports(opts, first.state, inputs[1..]);
      ChangesAppend(first.events, rest.events);
      if |first.events| != 0 {
        assert |first.events| == 1;
        assert first.events[0] in first.events;
        assert Changes(first.events[1..]) == [];
      }
    }
  }
}
