/**
  The scroll widget as a deterministic state machine over one instance.

  Every input (wheel, drag, control click) ends in one call of `OnWheel`,
  which clamps the offset into [0, maxMarginLeft], filters wheel calls that
  would not move or come too soon after the previous call, toggles the
  animation flag and re-syncs the control buttons' visibility.
*/
module Scroll {
  import opened Wrappers
  import opened ScrollOptions
  import Geometry

  /** What one instance reads after construction. */
  datatype Config = Config(
    maxMarginLeft: nat,
    wheelInterval: int,
    enabled: bool,
    left: Option<ElemId>,
    right: Option<ElemId>,
    pace: nat)

  /** The drag record kept while the primary button is held (`clicked` is set). */
  datatype Drag = Drag(startX: int, prevX: int, x: int)

  /**
    One instance's mutable state. `mouse` is `None` when the drag record is
    empty; `displayed` is the offset last written to the inner element's
    style (the style holds its negation), `None` before the first write.
  */
  datatype State = State(
    marginLeft: int,
    lastWheel: Option<int>,
    animated: bool,
    mouse: Option<Drag>,
    leftHidden: bool,
    rightHidden: bool,
    displayed: Option<int>)

  datatype Side = LeftSide | RightSide

  /**
    The inputs the instance listens to. Every event that can reach `OnWheel`
    carries the clock reading `now`; `which` is the mouse button index.
  */
  datatype Event =
    | Wheel(pixels: int, now: int)
    | MouseDown(target: ElemId, which: int, pageX: int)
    | MouseMove(pageX: int, now: int)
    | MouseUp(target: ElemId, which: int, pageX: int, now: int)
    | ControlClick(side: Side, now: int)

  /** Button index of the primary mouse button. */
  const Primary := 1

  /** The widget after construction. */
  datatype Widget = Widget(config: Config, state: State)

  /** Why construction throws. */
  datatype InitError = OptionsMissing | ItemsMissing | ControlMissing

  /** Two-sided clamp: the reference the one-sided clamps of `NewMarginLeft` are held against. */
  function Clamp(v: int, lo: int, hi: int): int
    requires lo <= hi
  {
    if v < lo then lo else if v > hi then hi else v
  }

  /**
    The tentative offset: a negative delta is floored at 0 only, a
    non-negative one capped at `maxMarginLeft` only.
  */
  function NewMarginLeft(marginLeft: int, pixels: int, maxMarginLeft: nat): (r: int)
    ensures 0 <= marginLeft <= maxMarginLeft ==> r == Clamp(marginLeft + pixels, 0, maxMarginLeft)
    ensures 0 <= marginLeft + pixels <= maxMarginLeft ==> r == marginLeft + pixels
    ensures pixels < 0 ==> 0 <= r && (r == 0 || r == marginLeft + pixels)
    ensures pixels >= 0 ==> r <= maxMarginLeft && (r == maxMarginLeft || r == marginLeft + pixels)
  {
    var n := marginLeft + pixels;
    if pixels < 0 then
      (if n < 0 then 0 else n)
    else
      (if n > maxMarginLeft then maxMarginLeft else n)
  }

  /**
    The time test of the wheel filter. With no previous call the clock
    difference is NaN and the comparison is false.
  */
  predicate TooSoon(lastWheel: Option<int>, now: int, wheelInterval: int) {
    lastWheel.Some? && now - lastWheel.value < wheelInterval
  }

  /** Whether a call of `OnWheel` commits its offset: non-wheel calls are never filtered. */
  predicate Accepts(c: Config, s: State, pixels: int, wheel: bool, now: int) {
    && c.maxMarginLeft != 0
    && (!wheel
        || (NewMarginLeft(s.marginLeft, pixels, c.maxMarginLeft) != s.marginLeft
            && !TooSoon(s.lastWheel, now, c.wheelInterval)))
  }

  /** The control flags agree with the offset (when controls are enabled). */
  predicate ControlsSynced(c: Config, s: State) {
    c.enabled ==>
      (s.leftHidden <==> s.marginLeft <= 0) && (s.rightHidden <==> s.marginLeft == c.maxMarginLeft)
  }

  /**
    Visibility sync: the left control is hidden unless the offset is
    positive, the right one exactly when the offset is at its maximum;
    nothing happens when controls are disabled.
  */
  function UpdateControls(c: Config, s: State): (r: State)
    ensures ControlsSynced(c, r)
    ensures !c.enabled ==> r == s
    ensures r.(leftHidden := s.leftHidden, rightHidden := s.rightHidden) == s
  {
    if !c.enabled then s
    else s.(leftHidden := !(s.marginLeft > 0), rightHidden := s.marginLeft == c.maxMarginLeft)
  }

  /** The offset engine, called with a signed pixel delta by every input adapter. */
  function OnWheel(c: Config, s: State, pixels: int, wheel: bool, withAnimation: bool, now: int): (r: State)
    // an unscrollable widget ignores every call
    ensures c.maxMarginLeft == 0 ==> r == s
    // the drag record is never touched
    ensures r.mouse == s.mouse
    // every call past the guard refreshes the timestamp, accepted or not
    ensures c.maxMarginLeft != 0 ==> r.lastWheel == Some(now)
    // a filtered wheel call changes nothing else
    ensures c.maxMarginLeft != 0 && !Accepts(c, s, pixels, wheel, now) ==> r == s.(lastWheel := Some(now))
    // an accepted call commits the clamped offset, writes it, and re-syncs
    ensures Accepts(c, s, pixels, wheel, now) ==>
      && r.marginLeft == NewMarginLeft(s.marginLeft, pixels, c.maxMarginLeft)
      && r.displayed == Some(r.marginLeft)
      && r.animated == (withAnimation || wheel)
      && ControlsSynced(c, r)
      && (!c.enabled ==> r.leftHidden == s.leftHidden && r.rightHidden == s.rightHidden)
    // the offset stays within bounds
    ensures 0 <= s.marginLeft <= c.maxMarginLeft ==> 0 <= r.marginLeft <= c.maxMarginLeft
  {
    if c.maxMarginLeft == 0 then s
    else
      var newMarginLeft := NewMarginLeft(s.marginLeft, pixels, c.maxMarginLeft);
      var s1 := s.(lastWheel := Some(now));
      if (s.marginLeft == newMarginLeft || TooSoon(s.lastWheel, now, c.wheelInterval)) && wheel then
        s1
      else
        UpdateControls(c, s1.(
          animated := withAnimation || wheel,
          marginLeft := newMarginLeft,
          displayed := Some(newMarginLeft)))
  }

  /** A primary press starts a drag record at `pageX` (replacing any record); other buttons do nothing. */
  function OnMouseDown(s: State, which: int, pageX: int): (r: State)
    ensures which != Primary ==> r == s
    ensures which == Primary ==>
      r.mouse.Some? && r.mouse.value.startX == r.mouse.value.prevX == r.mouse.value.x == pageX
    ensures r.(mouse := s.mouse) == s
  {
    if which != Primary then s
    else s.(mouse := Some(Drag(pageX, pageX, pageX)))
  }

  /**
    A move during a drag applies the delta from the last tracked x and then
    tracks the new x, whether or not the offset engine committed anything.
  */
  function OnMouseMove(c: Config, s: State, pageX: int, now: int): (r: State)
    ensures s.mouse.None? ==> r == s
    ensures s.mouse.Some? ==>
      r.mouse == Some(s.mouse.value.(prevX := s.mouse.value.x, x := pageX))
    ensures s.mouse.Some? && c.maxMarginLeft != 0 ==>
      && r.marginLeft == NewMarginLeft(s.marginLeft, s.mouse.value.x - pageX, c.maxMarginLeft)
      && r.displayed == Some(r.marginLeft)
      && !r.animated
      && r.lastWheel == Some(now)
  {
    match s.mouse
    case None => s
    case Some(d) =>
      var s1 := s.(mouse := Some(d.(prevX := d.x)));
      var s2 := OnWheel(c, s1, d.x - pageX, false, false, now);
      s2.(mouse := Some(s2.mouse.value.(x := pageX)))
  }

  /**
    A primary release during a drag applies the delta from the last tracked
    x to the release point and empties the drag record; a release of another
    button leaves the drag in place.
  */
  function OnMouseUp(c: Config, s: State, which: int, pageX: int, now: int): (r: State)
    ensures s.mouse.None? || which != Primary ==> r == s
    ensures s.mouse.Some? && which == Primary ==> r.mouse.None?
    ensures s.mouse.Some? && which == Primary && c.maxMarginLeft != 0 ==>
      && r.marginLeft == NewMarginLeft(s.marginLeft, s.mouse.value.x - pageX, c.maxMarginLeft)
      && r.displayed == Some(r.marginLeft)
      && !r.animated
      && r.lastWheel == Some(now)
  {
    match s.mouse
    case None => s
    case Some(d) =>
      if which != Primary then s
      else OnWheel(c, s, d.x - pageX, false, false, now).(mouse := None)
  }

  /** The delta a control click applies: `-pace` on the left button, `+pace` on the right one. */
  function ControlDelta(pace: nat, side: Side): (d: int)
    ensures d == 0 <==> pace == 0
    ensures d < 0 ==> side == LeftSide
    ensures d > 0 ==> side == RightSide
    ensures d * d == pace * pace
  {
    match side
    case LeftSide => -(pace as int)
    case RightSide => pace
  }

  /**
    Whether an event target counts as a control. As written it parses as
    `(enabled && el === left) || el === right`, so the right element counts
    even with controls disabled.
  */
  predicate IsControl(c: Config, el: ElemId)
    ensures !c.enabled ==> (IsControl(c, el) <==> c.right == Some(el))
    ensures c.enabled ==> (IsControl(c, el) <==> c.left == Some(el) || c.right == Some(el))
  {
    (c.enabled && c.left == Some(el)) || c.right == Some(el)
  }

  /** The invariant every reachable state keeps. */
  predicate Valid(c: Config, s: State) {
    && 0 <= s.marginLeft <= c.maxMarginLeft
    && (s.displayed.Some? ==> s.displayed.value == s.marginLeft)
    && (s.displayed.None? ==> s.marginLeft == 0 && !s.animated)
    && ControlsSynced(c, s)
    && (!c.enabled ==> !s.leftHidden && !s.rightHidden)
  }

  /** Dispatch of one input event to its listener. */
  function Step(c: Config, s: State, e: Event): (r: State)
    ensures e.MouseDown? && (e.which != Primary || IsControl(c, e.target)) ==> r == s
    ensures e.MouseMove? && s.mouse.None? ==> r == s
    ensures e.MouseUp? && (s.mouse.None? || e.which != Primary || IsControl(c, e.target)) ==> r == s
    ensures e.ControlClick? && !c.enabled ==> r == s
    ensures e.Wheel? ==> r.mouse == s.mouse
    // a wheel event is a wheel call of the engine: committed and animated when it passes the filter
    ensures e.Wheel? && Accepts(c, s, e.pixels, true, e.now) ==>
      r.marginLeft == NewMarginLeft(s.marginLeft, e.pixels, c.maxMarginLeft) && r.animated
    ensures e.Wheel? && c.maxMarginLeft != 0 && !Accepts(c, s, e.pixels, true, e.now) ==>
      r == s.(lastWheel := Some(e.now))
    ensures Valid(c, s) ==> Valid(c, r)
  {
    match e
    case Wheel(pixels, now) => OnWheel(c, s, pixels, true, false, now)
    case MouseDown(target, which, pageX) =>
      if IsControl(c, target) then s else OnMouseDown(s, which, pageX)
    case MouseMove(pageX, now) => OnMouseMove(c, s, pageX, now)
    case MouseUp(target, which, pageX, now) =>
      if IsControl(c, target) then s else OnMouseUp(c, s, which, pageX, now)
    case ControlClick(side, now) =>
      if !c.enabled then s else OnWheel(c, s, ControlDelta(c.pace, side), false, true, now)
  }

  /** The state right after construction, with the controls' initial visibility set up. */
  function Init(c: Config): (s: State)
    ensures Valid(c, s)
    ensures s.marginLeft == 0 && s.lastWheel.None? && s.mouse.None? && !s.animated && s.displayed.None?
    ensures c.enabled ==> s.leftHidden && (s.rightHidden <==> c.maxMarginLeft == 0)
  {
    var s := State(0, None, false, None, false, false, None);
    if c.enabled then s.(leftHidden := !(s.marginLeft > 0), rightHidden := s.marginLeft == c.maxMarginLeft)
    else s
  }

  /** The configuration an instance keeps from its merged options and its measurement. */
  function ConfigOf(o: Options, m: Geometry.Measurement): Config {
    Config(m.maxMarginLeft, o.wheelInterval, o.controls.enabled, o.controls.left, o.controls.right, o.controls.pace)
  }

  /**
    Construction: merge the options, measure, set up the controls. It throws
    when no options object is given, when the content has no item, and when
    controls are enabled without both control elements.
  */
  function Create(given: Option<UserOptions>, innerBoxWidth: int, items: seq<Geometry.Rect>): (r: Result<Widget, InitError>)
    ensures given.None? ==> r == Failure(OptionsMissing)
    ensures given.Some? && |items| == 0 ==> r == Failure(ItemsMissing)
    ensures given.Some? && |items| > 0 ==>
      (r.Failure? <==>
        Merge(given).value.controls.enabled
        && (Merge(given).value.controls.left.None? || Merge(given).value.controls.right.None?))
    ensures r.Success? ==>
      && Valid(r.value.config, r.value.state)
      && (r.value.config.enabled ==> r.value.config.left.Some? && r.value.config.right.Some?)
      && r.value.config.maxMarginLeft == Geometry.Measure(innerBoxWidth, items).value.maxMarginLeft
      && r.value.config.wheelInterval == Merge(given).value.wheelInterval
      && r.value.config.enabled == Merge(given).value.controls.enabled
      && r.value.config.left == Merge(given).value.controls.left
      && r.value.config.right == Merge(given).value.controls.right
      && r.value.config.pace == Merge(given).value.controls.pace
      && r.value.state == Init(r.value.config)
  {
    match Merge(given)
    case Failure(_) => Failure(OptionsMissing)
    case Success(o) =>
      match Geometry.Measure(innerBoxWidth, items)
      case Failure(_) => Failure(ItemsMissing)
      case Success(m) =>
        if o.controls.enabled && (o.controls.left.None? || o.controls.right.None?) then
          Failure(ControlMissing)
        else
          var c := ConfigOf(o, m);
          Success(Widget(c, Init(c)))
  }
}
