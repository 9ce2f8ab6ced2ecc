/**
  Concrete runs of the widget: the demo page's configuration (fourteen items,
  controls enabled, pace 500) and the wheel and drag examples.
*/
module ScrollScenarios {
  import opened Wrappers
  import opened ScrollOptions
  import opened Geometry
  import opened Scroll
  import opened ScrollRuns

  /** Fourteen side-by-side items 200 pixels wide. */
  const DemoItems: seq<Rect> := [
    Rect(0, 200), Rect(200, 200), Rect(400, 200), Rect(600, 200), Rect(800, 200),
    Rect(1000, 200), Rect(1200, 200), Rect(1400, 200), Rect(1600, 200), Rect(1800, 200),
    Rect(2000, 200), Rect(2200, 200), Rect(2400, 200), Rect(2600, 200)]

  /** The demo page's options: controls enabled on elements 1 and 2, pace 500. */
  const DemoOptions: UserOptions :=
    NoOptions.(controls := Some(UserControls(Some(true), Some(1), Some(2), Some(500))))

  /**
    The demo page with an inner wrapper box 800 pixels wide: 2800 pixels of content give a
    largest offset of 2000. One right click shows both controls; four more
    reach 2000 and hide the right control; a further click stays at 2000.
  */
  lemma DemoPageScenario()
    ensures var r := Create(Some(DemoOptions), 800, DemoItems);
      && r.Success?
      && r.value.config.maxMarginLeft == 2000
      && r.value.config.pace == 500
      && r.value.state.leftHidden && !r.value.state.rightHidden
      && var c := r.value.config;
         var s1 := Step(c, r.value.state, ControlClick(RightSide, 0));
         var s5 := Run(c, s1, [ControlClick(RightSide, 1), ControlClick(RightSide, 2),
                               ControlClick(RightSide, 3), ControlClick(RightSide, 4)]);
         var s6 := Step(c, s5, ControlClick(RightSide, 5));
         && s1.marginLeft == 500 && !s1.leftHidden && !s1.rightHidden
         && s5.marginLeft == 2000 && !s5.leftHidden && s5.rightHidden
         && s6.marginLeft == 2000 && s6.rightHidden
  {
    var m := Measure(800, DemoItems);
    assert m.value.maxMarginLeft == 2000;
    var r := Create(Some(DemoOptions), 800, DemoItems);
    var c := r.value.config;
    assert c == Config(2000, 20, true, Some(1), Some(2), 500);
    var s0 := r.value.state;
    var s1 := Step(c, s0, ControlClick(RightSide, 0));
    assert s1.marginLeft == 500;
    var s2 := Step(c, s1, ControlClick(RightSide, 1));
    assert s2.marginLeft == 1000;
    var s3 := Step(c, s2, ControlClick(RightSide, 2));
    assert s3.marginLeft == 1500;
    var s4 := Step(c, s3, ControlClick(RightSide, 3));
    assert s4.marginLeft == 2000;
    var s5 := Step(c, s4, ControlClick(RightSide, 4));
    assert s5.marginLeft == 2000;
    var clicks := [ControlClick(RightSide, 1), ControlClick(RightSide, 2),
                   ControlClick(RightSide, 3), ControlClick(RightSide, 4)];
    assert clicks[1..][1..][1..][1..] == [];
    assert Run(c, s1, clicks) == s5;
  }

  /** A second wheel event 10 ms after the first, with a 20 ms interval, has no effect. */
  lemma WheelDebounceScenario(c: Config, p1: int, p2: int)
    requires c.maxMarginLeft != 0 && c.wheelInterval == 20
    ensures Run(c, Init(c), [Wheel(p1, 0), Wheel(p2, 10)]).marginLeft
         == Step(c, Init(c), Wheel(p1, 0)).marginLeft
  {
    var s1 := Step(c, Init(c), Wheel(p1, 0));
    assert [Wheel(p1, 0), Wheel(p2, 10)][1..] == [Wheel(p2, 10)];
    RunSingle(c, s1, Wheel(p2, 10));
  }

  /** Dragging from x = 100 to x = 60 and releasing there scrolls 40 pixels further, unanimated. */
  lemma DragScenario(c: Config, s: State)
    requires Valid(c, s) && c.maxMarginLeft != 0 && s.marginLeft + 40 <= c.maxMarginLeft
    requires c.left != Some(0) && c.right != Some(0)
    ensures var r := Run(c, s, [MouseDown(0, Primary, 100), MouseMove(80, 1), MouseMove(60, 2),
                                MouseUp(0, Primary, 60, 3)]);
      r.marginLeft == s.marginLeft + 40 && !r.animated && r.mouse.None?
  {
    var moves := [MouseMove(80, 1), MouseMove(60, 2)];
    DragNetOffset(c, s, 0, 100, moves, 0, 60, 3);
    assert [MouseDown(0, Primary, 100)] + moves + [MouseUp(0, Primary, 60, 3)]
        == [MouseDown(0, Primary, 100), MouseMove(80, 1), MouseMove(60, 2), MouseUp(0, Primary, 60, 3)];
  }
}
