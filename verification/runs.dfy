/**
  Runs of the scroll state machine over event sequences, delivered one at a
  time in order as the host's event loop does, and the properties that
  relate several events: the invariant, the unscrollable widget, the wheel
  filter over bursts, drag telescoping and control clicks.
*/
module ScrollRuns {
  import opened Wrappers
  import opened ScrollOptions
  import opened Scroll

  /** The state after delivering `events` in order. */
  function Run(c: Config, s: State, events: seq<Event>): State
    decreases |events|
  {
    if |events| == 0 then s else Run(c, Step(c, s, events[0]), events[1..])
  }

  /** Delivering two sequences one after the other is delivering their concatenation. */
  lemma {:induction false} RunAppend(c: Config, s: State, a: seq<Event>, b: seq<Event>)
    ensures Run(c, s, a + b) == Run(c, Run(c, s, a), b)
    decreases |a|
  {
    if |a| == 0 {
      assert a + b == b;
    } else {
      assert (a + b)[0] == a[0];
      assert (a + b)[1..] == a[1..] + b;
      RunAppend(c, Step(c, s, a[0]), a[1..], b);
    }
  }

  /** Every sequence of inputs keeps the offset in bounds and the controls in sync with it. */
  lemma {:induction false} RunPreservesValid(c: Config, s: State, events: seq<Event>)
    requires Valid(c, s)
    ensures Valid(c, Run(c, s, events))
    decreases |events|
  {
    if |events| > 0 {
      RunPreservesValid(c, Step(c, s, events[0]), events[1..]);
    }
  }

  /** Every state reachable from construction satisfies the invariant. */
  lemma ReachableStatesAreValid(c: Config, events: seq<Event>)
    ensures Valid(c, Run(c, Init(c), events))
    ensures 0 <= Run(c, Init(c), events).marginLeft <= c.maxMarginLeft
  {
    RunPreservesValid(c, Init(c), events);
  }

  /**
    On an unscrollable widget no sequence of inputs changes anything but the
    drag record: not the offset, the written style, the timestamp, the
    animation flag or the controls.
  */
  lemma {:induction false} UnscrollableRunChangesOnlyDrag(c: Config, s: State, events: seq<Event>)
    requires c.maxMarginLeft == 0
    ensures Run(c, s, events).(mouse := s.mouse) == s
    decreases |events|
  {
    if |events| > 0 {
      var s1 := Step(c, s, events[0]);
      assert s1.(mouse := s.mouse) == s;
      UnscrollableRunChangesOnlyDrag(c, s1, events[1..]);
    }
  }

  /** Wheel events each arriving less than `interval` after the previous input (the first after `prev`). */
  predicate RapidWheels(prev: int, events: seq<Event>, interval: int)
    decreases |events|
  {
    |events| == 0
    || (events[0].Wheel? && events[0].now - prev < interval
        && RapidWheels(events[0].now, events[1..], interval))
  }

  /**
    Because the timestamp is refreshed by rejected calls too, a burst of
    wheel events that never pauses for `wheelInterval` is rejected in full:
    only the timestamp moves, to the time of the last event.
  */
  lemma {:induction false} RapidWheelBurstIsRejected(c: Config, s: State, t0: int, events: seq<Event>)
    requires c.maxMarginLeft != 0
    requires s.lastWheel == Some(t0)
    requires RapidWheels(t0, events, c.wheelInterval)
    ensures Run(c, s, events).(lastWheel := s.lastWheel) == s
    ensures |events| > 0 ==>
      events[|events| - 1].Wheel? && Run(c, s, events).lastWheel == Some(events[|events| - 1].now)
    decreases |events|
  {
    if |events| > 0 {
      var e := events[0];
      assert TooSoon(s.lastWheel, e.now, c.wheelInterval);
      var s1 := Step(c, s, e);
      assert s1 == s.(lastWheel := Some(e.now));
      RapidWheelBurstIsRejected(c, s1, e.now, events[1..]);
      if |events| > 1 {
        assert events[1..][|events[1..]| - 1] == events[|events| - 1];
      }
    }
  }

  /**
    A wheel event that is not too soon after the previous call (the first
    one of an instance never is) is accepted whenever it moves the offset.
  */
  lemma SpacedWheelIsAccepted(c: Config, s: State, pixels: int, now: int)
    requires Valid(c, s) && c.maxMarginLeft != 0
    requires s.lastWheel.None? || now - s.lastWheel.value >= c.wheelInterval
    requires Clamp(s.marginLeft + pixels, 0, c.maxMarginLeft) != s.marginLeft
    ensures Step(c, s, Wheel(pixels, now)).marginLeft == Clamp(s.marginLeft + pixels, 0, c.maxMarginLeft)
    ensures Step(c, s, Wheel(pixels, now)).animated
  {
  }

  /**
    A control click refreshes the timestamp the wheel filter reads, so a wheel
    event less than `wheelInterval` after it is discarded.
  */
  lemma ControlClickDelaysWheel(c: Config, s: State, side: Side, t: int, pixels: int, t2: int)
    requires c.enabled && c.maxMarginLeft != 0
    requires t2 - t < c.wheelInterval
    ensures var s1 := Step(c, s, ControlClick(side, t));
      Run(c, s, [ControlClick(side, t), Wheel(pixels, t2)]) == s1.(lastWheel := Some(t2))
  {
    var s1 := Step(c, s, ControlClick(side, t));
    assert s1.lastWheel == Some(t);
    assert [ControlClick(side, t), Wheel(pixels, t2)][1..] == [Wheel(pixels, t2)];
    RunSingle(c, s1, Wheel(pixels, t2));
  }

  /**
    A control click is never filtered: with controls enabled it moves the
    offset by `pace` towards its side, clamped, with the animation on.
  */
  lemma ControlClickMoves(c: Config, s: State, side: Side, now: int)
    requires Valid(c, s) && c.enabled && c.maxMarginLeft != 0
    ensures var r := Step(c, s, ControlClick(side, now));
      && r.marginLeft == Clamp(s.marginLeft + ControlDelta(c.pace, side), 0, c.maxMarginLeft)
      && r.displayed == Some(r.marginLeft)
      && r.animated
      && (r.leftHidden <==> r.marginLeft == 0)
      && (r.rightHidden <==> r.marginLeft == c.maxMarginLeft)
  {
  }

  /** Moves during a drag, none of which would be clamped given the running offset `base - x`. */
  predicate UnclampedMoves(base: int, maxMarginLeft: nat, moves: seq<Event>) {
    forall i :: 0 <= i < |moves| ==>
      moves[i].MouseMove? && 0 <= base - moves[i].pageX <= maxMarginLeft
  }

  /** During a drag with no clamped step, the offset stays `base - x` for the tracked pointer x. */
  lemma {:induction false} DragTracksPointer(c: Config, s: State, base: int, moves: seq<Event>)
    requires Valid(c, s) && c.maxMarginLeft != 0
    requires s.mouse.Some? && s.marginLeft == base - s.mouse.value.x
    requires UnclampedMoves(base, c.maxMarginLeft, moves)
    ensures var r := Run(c, s, moves);
      && Valid(c, r)
      && r.mouse.Some?
      && r.mouse.value.startX == s.mouse.value.startX
      && r.marginLeft == base - r.mouse.value.x
      && (|moves| > 0 ==> r.mouse.value.x == moves[|moves| - 1].pageX && !r.animated)
    decreases |moves|
  {
    if |moves| > 0 {
      var s1 := Step(c, s, moves[0]);
      assert s1.marginLeft == base - moves[0].pageX;
      assert UnclampedMoves(base, c.maxMarginLeft, moves[1..]) by {
        forall i | 0 <= i < |moves[1..]|
          ensures moves[1..][i].MouseMove? && 0 <= base - moves[1..][i].pageX <= c.maxMarginLeft
        {
          assert moves[1..][i] == moves[i + 1];
        }
      }
      DragTracksPointer(c, s1, base, moves[1..]);
      if |moves| > 1 {
        assert moves[1..][|moves[1..]| - 1] == moves[|moves| - 1];
      }
    }
  }

  /** Delivering one event is one step. */
  lemma RunSingle(c: Config, s: State, e: Event)
    ensures Run(c, s, [e]) == Step(c, s, e)
  {
    assert [e][1..] == [];
  }

  /**
    A primary press at `x0`, moves, and a primary release at `xr`, none of
    them clamped, move the offset by exactly `x0 - xr` (the per-event deltas
    telescope) without animation, and leave the drag record empty.
  */
  lemma DragNetOffset(c: Config, s: State, downAt: ElemId, x0: int, moves: seq<Event>,
                      upAt: ElemId, xr: int, now: int)
    requires Valid(c, s) && c.maxMarginLeft != 0
    requires !IsControl(c, downAt) && !IsControl(c, upAt)
    requires UnclampedMoves(s.marginLeft + x0, c.maxMarginLeft, moves)
    requires 0 <= s.marginLeft + x0 - xr <= c.maxMarginLeft
    ensures var r := Run(c, s, [MouseDown(downAt, Primary, x0)] + moves + [MouseUp(upAt, Primary, xr, now)]);
      && r.marginLeft == s.marginLeft + x0 - xr
      && r.displayed == Some(r.marginLeft)
      && r.mouse.None?
      && !r.animated
      && Valid(c, r)
  {
    var down := MouseDown(downAt, Primary, x0);
    var up := MouseUp(upAt, Primary, xr, now);
    RunAppend(c, s, [down] + moves, [up]);
    RunAppend(c, s, [down], moves);
    RunSingle(c, s, down);
    var s1 := Step(c, s, down);
    DragTracksPointer(c, s1, s.marginLeft + x0, moves);
    var s2 := Run(c, s1, moves);
    RunSingle(c, s2, up);
  }

  /**
    Mouse events the instance ignores: presses and releases of other buttons,
    and moves or releases while no drag is active.
  */
  predicate Ignored(s: State, e: Event) {
    || (e.MouseDown? && e.which != Primary)
    || (e.MouseUp? && (e.which != Primary || s.mouse.None?))
    || (e.MouseMove? && s.mouse.None?)
  }

  /** A sequence of ignored mouse events leaves the whole state as it was. */
  lemma {:induction false} IgnoredMouseEvents(c: Config, s: State, events: seq<Event>)
    requires forall i :: 0 <= i < |events| ==> Ignored(s, events[i])
    ensures Run(c, s, events) == s
    decreases |events|
  {
    if |events| > 0 {
      assert Step(c, s, events[0]) == s;
      assert forall i :: 0 <= i < |events[1..]| ==> Ignored(s, events[1..][i]) by {
        forall i | 0 <= i < |events[1..]|
          ensures Ignored(s, events[1..][i])
        {
          assert events[1..][i] == events[i + 1];
        }
      }
      IgnoredMouseEvents(c, s, events[1..]);
    }
  }
}
