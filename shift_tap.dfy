/**
 * The Shift-tap detector of KeyboardMonitor (ShiftSwitch/ShiftSwitchApp.swift:363-479) as
 * pure transition functions over the detector's state. The class KeyboardMonitor in module
 * Monitor runs the same logic imperatively and is proved equal to these functions.
 *
 * Times are integer milliseconds: the source's `duration > 0.05 && duration < 0.5`
 * (seconds) is `MinTapMs < duration < MaxTapMs`.
 */
module ShiftTap {
  import opened EventFlags

  const LeftShiftCode := 56
  const RightShiftCode := 60
  const CapsLockCode := 57
  const MinTapMs := 50
  const MaxTapMs := 500

  /** The CGEventType of an intercepted event; every other type goes to the default branch. */
  datatype EventKind = KeyDown | KeyUp | FlagsChanged | OtherKind

  /** An intercepted event: its type, its key code and its modifier flags. */
  datatype KeyEvent = KeyEvent(kind: EventKind, code: int, flags: bv64)

  /** An event together with the clock reading taken when it is handled. */
  datatype Input = Input(event: KeyEvent, nowMs: int)

  /**
   * The detector's fields. The two sides share one press time and one
   * "other key pressed" flag, as in the source.
   */
  datatype ShiftState = ShiftState(
    leftPressed: bool,
    rightPressed: bool,
    pressTime: int,
    otherKeyPressed: bool)

  /** The field values at construction time. */
  const Initial := ShiftState(false, false, 0, false)

  datatype Side = Left | Right

  function Opposite(side: Side): Side {
    if side == Left then Right else Left
  }

  function SideCode(side: Side): int {
    if side == Left then LeftShiftCode else RightShiftCode
  }

  function Pressed(s: ShiftState, side: Side): bool {
    if side == Left then s.leftPressed else s.rightPressed
  }

  function SetPressed(s: ShiftState, side: Side, b: bool): ShiftState {
    if side == Left then s.(leftPressed := b) else s.(rightPressed := b)
  }

  /** `leftShiftDown` / `rightShiftDown`: the Shift bit is set and the key code is that side's. */
  predicate ShiftDown(e: KeyEvent, side: Side) {
    HasFlag(e.flags, ShiftMask) && e.code == SideCode(side)
  }

  predicate InTapWindow(duration: int) {
    MinTapMs < duration < MaxTapMs
  }

  /** A release at `now` is a solitary tap: no other key came in between and the hold was in the window. */
  predicate IsTap(s: ShiftState, now: int) {
    !s.otherKeyPressed && InTapWindow(now - s.pressTime)
  }

  predicate AtMostOneHeld(s: ShiftState) {
    !(s.leftPressed && s.rightPressed)
  }

  /** A key-down that disqualifies a pending tap. */
  predicate IsOtherKeyDown(e: KeyEvent) {
    e.kind == KeyDown && e.code != LeftShiftCode && e.code != RightShiftCode
  }

  /** The event as it leaves the tap: only Caps Lock flags-changed events are rewritten. */
  function Normalize(e: KeyEvent): KeyEvent {
    if e.kind == FlagsChanged && e.code == CapsLockCode then e.(flags := CapsLockFlags(e.flags)) else e
  }

  datatype SideStep = SideStep(state: ShiftState, toggles: nat)

  /**
   * One side's block of handleFlagsChanged (lines 434-454 for the left side, 456-476 for the
   * right): `down` is that side's `ShiftDown` for the event being handled.
   */
  function UpdateSide(s: ShiftState, side: Side, down: bool, now: int): (r: SideStep)
    ensures Pressed(r.state, side) == down
    ensures Pressed(r.state, Opposite(side)) == Pressed(s, Opposite(side))
    ensures r.toggles == (if Pressed(s, side) && !down && IsTap(s, now) then 1 else 0)
    ensures !Pressed(s, side) && down ==> r.state.pressTime == now && !r.state.otherKeyPressed
    ensures !(!Pressed(s, side) && down) ==>
              r.state.pressTime == s.pressTime && r.state.otherKeyPressed == s.otherKeyPressed
  {
    if !Pressed(s, side) && down then
      SideStep(SetPressed(s, side, true).(pressTime := now, otherKeyPressed := false), 0)
    else if Pressed(s, side) && !down then
      SideStep(SetPressed(s, side, false), if IsTap(s, now) then 1 else 0)
    else
      SideStep(s, 0)
  }

  /** handleKeyDown (lines 387-397): only the "other key pressed" flag can change. */
  function OnKeyDown(s: ShiftState, code: int): (r: ShiftState)
    ensures r.leftPressed == s.leftPressed && r.rightPressed == s.rightPressed
    ensures r.pressTime == s.pressTime
    ensures r.otherKeyPressed <==>
              s.otherKeyPressed
              || ((s.leftPressed || s.rightPressed) && code != LeftShiftCode && code != RightShiftCode)
  {
    if (s.leftPressed || s.rightPressed) && code != LeftShiftCode && code != RightShiftCode then
      s.(otherKeyPressed := true)
    else
      s
  }

  /** What handling one event produces: the new state, the event passed on and the toggles scheduled. */
  datatype Step = Step(state: ShiftState, event: KeyEvent, toggles: nat)

  /** handleFlagsChanged (lines 405-479), with `now` the clock reading of line 407. */
  function OnFlagsChanged(s: ShiftState, e: KeyEvent, now: int): (r: Step)
    // Caps Lock: flags rewritten, Shift state untouched, nothing scheduled.
    ensures e.code == CapsLockCode ==>
              r.state == s && r.toggles == 0 && r.event == e.(flags := CapsLockFlags(e.flags))
    ensures e.code != CapsLockCode ==> r.event == e
    // Afterwards each side is held exactly when this event is a Shift-down for it.
    ensures e.code != CapsLockCode ==>
              r.state.leftPressed == ShiftDown(e, Left) && r.state.rightPressed == ShiftDown(e, Right)
    ensures e.code != CapsLockCode ==> AtMostOneHeld(r.state)
    // A press of either side restarts the shared timing.
    ensures e.code != CapsLockCode && ((!s.leftPressed && ShiftDown(e, Left)) || (!s.rightPressed && ShiftDown(e, Right))) ==>
              r.state.pressTime == now && !r.state.otherKeyPressed
    ensures e.code != CapsLockCode && !((!s.leftPressed && ShiftDown(e, Left)) || (!s.rightPressed && ShiftDown(e, Right))) ==>
              r.state.pressTime == s.pressTime && r.state.otherKeyPressed == s.otherKeyPressed
    // The tap window, by which sides were held before the event.
    ensures !s.leftPressed && !s.rightPressed ==> r.toggles == 0
    ensures e.code != CapsLockCode && s.leftPressed && !s.rightPressed ==>
              r.toggles == (if !ShiftDown(e, Left) && IsTap(s, now) then 1 else 0)
    ensures e.code != CapsLockCode && s.rightPressed && !s.leftPressed ==>
              r.toggles == (if !ShiftDown(e, Right) && !ShiftDown(e, Left) && IsTap(s, now) then 1 else 0)
    ensures e.code != CapsLockCode && s.leftPressed && s.rightPressed ==>
              r.toggles == (if !ShiftDown(e, Left) && IsTap(s, now) then 1 else 0)
                         + (if !ShiftDown(e, Right) && IsTap(s, now) then 1 else 0)
  {
    if e.code == CapsLockCode then
      Step(s, e.(flags := CapsLockFlags(e.flags)), 0)
    else
      var left := UpdateSide(s, Left, ShiftDown(e, Left), now);
      var right := UpdateSide(left.state, Right, ShiftDown(e, Right), now);
      Step(right.state, e, left.toggles + right.toggles)
  }

  /** handleKeyboardEvent (lines 363-384): dispatch on the event type. */
  function OnEvent(s: ShiftState, e: KeyEvent, now: int): (r: Step)
    ensures r.event == Normalize(e)
    ensures e.kind != FlagsChanged ==> r.toggles == 0
    ensures e.kind == KeyUp || e.kind == OtherKind ==> r.state == s
    ensures AtMostOneHeld(s) ==> AtMostOneHeld(r.state) && r.toggles <= 1
  {
    match e.kind
    case KeyDown => Step(OnKeyDown(s, e.code), e, 0)
    case KeyUp => Step(s, e, 0)
    case FlagsChanged => OnFlagsChanged(s, e, now)
    case OtherKind => Step(s, e, 0)
  }

  datatype RunResult = RunResult(state: ShiftState, outputs: seq<KeyEvent>, toggles: nat)

  /** Handling a sequence of events in order, summing the toggles scheduled. */
  function Run(s: ShiftState, inputs: seq<Input>): (r: RunResult)
    ensures |r.outputs| == |inputs|
    ensures forall i :: 0 <= i < |inputs| ==> r.outputs[i] == Normalize(inputs[i].event)
    decreases |inputs|
  {
    if |inputs| == 0 then RunResult(s, [], 0)
    else
      var first := OnEvent(s, inputs[0].event, inputs[0].nowMs);
      var rest := Run(first.state, inputs[1..]);
      assert forall i :: 1 <= i < |inputs| ==> inputs[i] == inputs[1..][i - 1];
      RunResult(rest.state, [first.event] + rest.outputs, first.toggles + rest.toggles)
  }

  /** An event that touches neither Shift flag nor the press time: key events, other event types, Caps Lock. */
  predicate IsNeutral(e: KeyEvent) {
    e.kind != FlagsChanged || e.code == CapsLockCode
  }

  /** Some input is a key-down of a key other than the two Shift keys. */
  function AnyOtherKeyDown(m: seq<Input>): (b: bool)
    ensures b <==> exists i :: 0 <= i < |m| && IsOtherKeyDown(m[i].event)
  {
    if |m| == 0 then false
    else
      assert forall i :: 1 <= i < |m| ==> m[i] == m[1..][i - 1];
      IsOtherKeyDown(m[0].event) || AnyOtherKeyDown(m[1..])
  }

  /** A flags-changed event that ends a hold of `side` (see the ensures of OnFlagsChanged). */
  predicate EndsHold(e: KeyEvent, side: Side) {
    && e.kind == FlagsChanged
    && e.code != CapsLockCode
    && !ShiftDown(e, side)
    // The left block runs first: a left press resets the shared time before a right release is timed.
    && (side == Right ==> !ShiftDown(e, Left))
  }

  /** Running two sequences one after the other is running their concatenation. */
  lemma {:induction false} RunAppend(s: ShiftState, a: seq<Input>, b: seq<Input>)
    ensures var ra := Run(s, a); var rb := Run(ra.state, b);
            Run(s, a + b) == RunResult(rb.state, ra.outputs + rb.outputs, ra.toggles + rb.toggles)
    decreases |a|
  {
    if |a| > 0 {
      var first := OnEvent(s, a[0].event, a[0].nowMs);
      var tail := Run(first.state, a[1..]);
      var rb := Run(tail.state, b);
      assert (a + b)[0] == a[0];
      assert (a + b)[1..] == a[1..] + b;
      RunAppend(first.state, a[1..], b);
      assert Run(first.state, a[1..] + b) == RunResult(rb.state, tail.outputs + rb.outputs, tail.toggles + rb.toggles);
      assert [first.event] + (tail.outputs + rb.outputs) == ([first.event] + tail.outputs) + rb.outputs;
    } else {
      assert a + b == b;
    }
  }

  /**
   * Neutral events schedule nothing and leave both Shift flags and the press time alone;
   * the "other key pressed" flag ends up set exactly when it was set already, or some
   * Shift is held and a non-Shift key goes down.
   */
  lemma {:induction false} NeutralRun(s: ShiftState, m: seq<Input>)
    requires forall i :: 0 <= i < |m| ==> IsNeutral(m[i].event)
    ensures var r := Run(s, m);
            && r.toggles == 0
            && r.state.leftPressed == s.leftPressed
            && r.state.rightPressed == s.rightPressed
            && r.state.pressTime == s.pressTime
            && (r.state.otherKeyPressed <==>
                  s.otherKeyPressed || ((s.leftPressed || s.rightPressed) && AnyOtherKeyDown(m)))
    decreases |m|
  {
    if |m| > 0 {
      assert forall i :: 1 <= i < |m| ==> m[i] == m[1..][i - 1];
      NeutralRun(OnEvent(s, m[0].event, m[0].nowMs).state, m[1..]);
    }
  }

  /**
   * The tap window. From a state with no Shift held, a press of `side` at `t0`, any neutral
   * events, and an event ending that hold at `t1` schedule exactly one toggle when no other
   * key went down in between and `t1 - t0` lies strictly between 50 and 500 ms, and none
   * otherwise. The result does not depend on the earlier press time or "other key" flag:
   * each cycle starts fresh.
   */
  lemma {:induction false} TapCycle(s: ShiftState, side: Side, press: KeyEvent, t0: int,
                                    middle: seq<Input>, release: KeyEvent, t1: int)
    requires Idle(s)
    requires press.kind == FlagsChanged && ShiftDown(press, side)
    requires forall i :: 0 <= i < |middle| ==> IsNeutral(middle[i].event)
    requires EndsHold(release, side)
    ensures var r := Run(s, [Input(press, t0)] + middle + [Input(release, t1)]);
            && r.toggles == (if !AnyOtherKeyDown(middle) && InTapWindow(t1 - t0) then 1 else 0)
            && !Pressed(r.state, side)
  {
    var p, q := [Input(press, t0)], [Input(release, t1)];
    RunAppend(s, p + middle, q);
    RunAppend(s, p, middle);
    var afterPress := OnEvent(s, press, t0).state;
    assert Run(s, p).state == afterPress && Run(s, p).toggles == 0;
    NeutralRun(afterPress, middle);
    var held := Run(afterPress, middle).state;
    assert Run(held, q).toggles == OnEvent(held, release, t1).toggles;
  }

  /**
   * Both Shift keys are never held at once, from any state where they were not: not at the
   * end of a trace, and not before any of its events, so each event schedules at most one
   * toggle.
   */
  lemma {:induction false} OneSideAtATime(s: ShiftState, inputs: seq<Input>)
    requires AtMostOneHeld(s)
    ensures AtMostOneHeld(Run(s, inputs).state)
    ensures Run(s, inputs).toggles <= |inputs|
    ensures forall k :: 0 <= k < |inputs| ==>
              var before := Run(s, inputs[..k]).state;
              AtMostOneHeld(before) && OnEvent(before, inputs[k].event, inputs[k].nowMs).toggles <= 1
    decreases |inputs|
  {
    if |inputs| > 0 {
      OneSideAtATime(OnEvent(s, inputs[0].event, inputs[0].nowMs).state, inputs[1..]);
      forall k | 0 <= k < |inputs|
        ensures AtMostOneHeld(Run(s, inputs[..k]).state)
      {
        OneSideAtATime(s, inputs[..k]);
      }
    }
  }

  /** The event at position `k` of a trace is handled from the state its prefix of length `k` reaches. */
  lemma StepOfRun(s: ShiftState, inputs: seq<Input>, k: int)
    requires 0 <= k < |inputs|
    ensures var before := Run(s, inputs[..k]);
            var step := OnEvent(before.state, inputs[k].event, inputs[k].nowMs);
            Run(s, inputs[..k + 1]) == RunResult(step.state, before.outputs + [step.event], before.toggles + step.toggles)
  {
    assert inputs[..k + 1] == inputs[..k] + [inputs[k]];
    RunAppend(s, inputs[..k], [inputs[k]]);
    RunOne(Run(s, inputs[..k]).state, inputs[k]);
  }

  function ShiftEvent(code: int, shiftBit: bool): KeyEvent {
    KeyEvent(FlagsChanged, code, if shiftBit then ShiftMask else 0)
  }

  predicate Idle(s: ShiftState) {
    !s.leftPressed && !s.rightPressed
  }

  /** Left Shift down at t0 and up 150 ms later, nothing in between: one toggle. */
  lemma LeftShiftTapScenario(s: ShiftState, t0: int)
    requires Idle(s)
    ensures Run(s, [Input(ShiftEvent(56, true), t0), Input(ShiftEvent(56, false), t0 + 150)]).toggles == 1
  {
    var p, r := Input(ShiftEvent(56, true), t0), Input(ShiftEvent(56, false), t0 + 150);
    TapCycle(s, Left, p.event, t0, [], r.event, t0 + 150);
    assert [p] + [] + [r] == [p, r];
  }

  /** Left Shift down at t0, "A" (key code 0) down 50 ms later, left Shift up at 150 ms: no toggle. */
  lemma ShiftWithLetterScenario(s: ShiftState, t0: int)
    requires Idle(s)
    ensures Run(s, [Input(ShiftEvent(56, true), t0), Input(KeyEvent(KeyDown, 0, 0), t0 + 50),
                    Input(ShiftEvent(56, false), t0 + 150)]).toggles == 0
  {
    var p, a, r := Input(ShiftEvent(56, true), t0), Input(KeyEvent(KeyDown, 0, 0), t0 + 50),
                   Input(ShiftEvent(56, false), t0 + 150);
    assert AnyOtherKeyDown([a]) by { assert IsOtherKeyDown([a][0].event); }
    TapCycle(s, Left, p.event, t0, [a], r.event, t0 + 150);
    assert [p] + [a] + [r] == [p, a, r];
  }

  /** Left Shift held 20 ms (below the window) or 600 ms (above it): no toggle. */
  lemma HoldOutsideWindowScenarios(s: ShiftState, t0: int)
    requires Idle(s)
    ensures Run(s, [Input(ShiftEvent(56, true), t0), Input(ShiftEvent(56, false), t0 + 20)]).toggles == 0
    ensures Run(s, [Input(ShiftEvent(56, true), t0), Input(ShiftEvent(56, false), t0 + 600)]).toggles == 0
  {
    var p := Input(ShiftEvent(56, true), t0);
    var short, long := Input(ShiftEvent(56, false), t0 + 20), Input(ShiftEvent(56, false), t0 + 600);
    TapCycle(s, Left, p.event, t0, [], short.event, t0 + 20);
    assert [p] + [] + [short] == [p, short];
    TapCycle(s, Left, p.event, t0, [], long.event, t0 + 600);
    assert [p] + [] + [long] == [p, long];
  }

  /** Running a single input is handling that event. */
  lemma RunOne(s: ShiftState, x: Input)
    ensures var step := OnEvent(s, x.event, x.nowMs);
            Run(s, [x]) == RunResult(step.state, [step.event], step.toggles)
  {
    assert [x][1..] == [];
  }

  /**
   * A Shift+Shift chord inside the window toggles twice: pressing right Shift while left is
   * held ends the left hold (and times it), then releasing left while right is held ends the
   * right hold. Right's own key-up still carries the Shift bit, because left is down.
   */
  lemma ShiftChordTogglesTwice(s: ShiftState, t0: int)
    requires Idle(s)
    ensures Run(s, [Input(ShiftEvent(56, true), t0), Input(ShiftEvent(60, true), t0 + 100),
                    Input(ShiftEvent(60, true), t0 + 200), Input(ShiftEvent(56, false), t0 + 300)]).toggles == 2
  {
    var x1, x2 := Input(ShiftEvent(56, true), t0), Input(ShiftEvent(60, true), t0 + 100);
    var x3, x4 := Input(ShiftEvent(60, true), t0 + 200), Input(ShiftEvent(56, false), t0 + 300);
    var s1 := OnEvent(s, x1.event, x1.nowMs);
    assert s1.toggles == 0 && s1.state == ShiftState(true, false, t0, false);
    var s2 := OnEvent(s1.state, x2.event, x2.nowMs);
    assert s2.toggles == 1 && s2.state == ShiftState(false, true, t0 + 100, false);
    var s3 := OnEvent(s2.state, x3.event, x3.nowMs);
    assert s3.toggles == 0 && s3.state == s2.state;
    var s4 := OnEvent(s3.state, x4.event, x4.nowMs);
    assert s4.toggles == 1;
    assert [x1, x2, x3, x4][1..] == [x2, x3, x4];
    assert [x2, x3, x4][1..] == [x3, x4];
    RunOne(s3.state, x4);
    assert [x3, x4][1..] == [x4];
    assert Run(s2.state, [x3, x4]).toggles == 1;
    assert Run(s1.state, [x2, x3, x4]).toggles == 2;
  }

  /** Pressing left Shift while right is held ends the right hold without a toggle, however the right hold was timed. */
  lemma LeftPressCancelsRightHold(s: ShiftState, flags: bv64, now: int)
    requires s.rightPressed && !s.leftPressed && HasFlag(flags, ShiftMask)
    ensures var r := OnEvent(s, KeyEvent(FlagsChanged, LeftShiftCode, flags), now);
            r.toggles == 0 && r.state.leftPressed && !r.state.rightPressed && r.state.pressTime == now
  {
  }
}
