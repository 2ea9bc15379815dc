/**
 * KeyboardMonitor (ShiftSwitch/ShiftSwitchApp.swift:239-501): the object that owns the event
 * tap and the Shift-tap detector. Its methods update its fields in place as the source's do,
 * and each is proved to agree with the pure transition of module ShiftTap or Lifecycle.
 *
 * The OS answers a method needs are its parameters: `permitted` for AXIsProcessTrusted(),
 * `created` for whether CGEvent.tapCreate returned a tap, `stillEnabled` for
 * CGEvent.tapIsEnabled, and `nowMs` for the clock read by handleFlagsChanged. A toggle request
 * handed to DispatchQueue.main.async is counted in `pendingToggles`.
 */
module Monitor {
  import opened EventFlags
  import opened ShiftTap
  import opened Lifecycle

  class KeyboardMonitor {
    var hasEventTap: bool
    var hasRunLoopSource: bool
    var leftShiftPressed: bool
    var rightShiftPressed: bool
    var shiftPressTime: int
    var otherKeyPressed: bool
    var isMonitoringActive: bool
    var pendingToggles: nat

    /** The detector's fields as a value. */
    function Shift(): ShiftState
      reads this
    {
      ShiftState(leftShiftPressed, rightShiftPressed, shiftPressTime, otherKeyPressed)
    }

    /** The lifecycle fields as a value. */
    function Tap(): TapState
      reads this
    {
      TapState(hasEventTap, hasRunLoopSource, isMonitoringActive)
    }

    /** init (lines 258-262): set up the tap at once; the two-second timer is the caller's. */
    constructor (permitted: bool, created: bool)
      ensures Shift() == Initial && pendingToggles == 0
      ensures Tap() == Setup(Stopped, permitted, created).state
      ensures Consistent(Tap())
    {
      hasEventTap, hasRunLoopSource, isMonitoringActive := false, false, false;
      leftShiftPressed, rightShiftPressed, shiftPressTime, otherKeyPressed := false, false, 0, false;
      pendingToggles := 0;
      new;
      var _ := SetupEventTap(permitted, created);
    }

    /** stopMonitoring (lines 482-493). */
    method StopMonitoring() returns (effects: seq<TapEffect>)
      modifies this
      ensures Transition(Tap(), effects) == Stop(old(Tap()))
      ensures Shift() == old(Shift()) && pendingToggles == old(pendingToggles)
    {
      effects := [];
      if hasEventTap {
        effects := effects + [TapDisabled];
        if hasRunLoopSource {
          effects := effects + [SourceRemoved];
        }
      }
      hasEventTap := false;
      hasRunLoopSource := false;
      isMonitoringActive := false;
    }

    /** setupEventTap (lines 315-359): clean up any existing tap, then create a new one. */
    method SetupEventTap(permitted: bool, created: bool) returns (effects: seq<TapEffect>)
      modifies this
      ensures Transition(Tap(), effects) == Setup(old(Tap()), permitted, created)
      ensures Shift() == old(Shift()) && pendingToggles == old(pendingToggles)
    {
      var stopped := [];
      if hasEventTap {
        stopped := StopMonitoring();
      }
      effects := CreateEventTap(permitted, created, stopped);
    }

    /** Lines 324-358 of setupEventTap, after the cleanup has performed `stopped`. */
    method CreateEventTap(permitted: bool, created: bool, stopped: seq<TapEffect>) returns (effects: seq<TapEffect>)
      modifies this
      ensures Transition(Tap(), effects) == Create(Transition(old(Tap()), stopped), permitted, created)
      ensures Shift() == old(Shift()) && pendingToggles == old(pendingToggles)
    {
      effects := stopped;
      if !permitted {
        isMonitoringActive := false;
        return;
      }
      effects := effects + [TapRequested];
      if !created {
        hasEventTap := false;
        isMonitoringActive := false;
        return;
      }
      hasEventTap := true;
      hasRunLoopSource := true;
      effects := effects + [SourceAdded, TapEnabled];
      isMonitoringActive := true;
    }

    /** checkAndUpdatePermissionStatus (lines 287-303): one tick of the supervisor. */
    method CheckAndUpdatePermissionStatus(permitted: bool, created: bool, stillEnabled: bool)
      returns (effects: seq<TapEffect>)
      modifies this
      ensures Transition(Tap(), effects) == Supervise(old(Tap()), permitted, created, stillEnabled)
      ensures Shift() == old(Shift()) && pendingToggles == old(pendingToggles)
    {
      effects := [];
      if permitted && !isMonitoringActive {
        effects := SetupEventTap(permitted, created);
      } else if !permitted && isMonitoringActive {
        effects := StopMonitoring();
      } else if permitted && isMonitoringActive {
        if hasEventTap && !stillEnabled {
          effects := SetupEventTap(permitted, created);
        }
      }
    }

    /** reinitializeMonitoring (lines 496-500). */
    method ReinitializeMonitoring(permitted: bool, created: bool) returns (effects: seq<TapEffect>)
      modifies this
      ensures Transition(Tap(), effects) == Reinitialize(old(Tap()), permitted, created)
      ensures Shift() == old(Shift()) && pendingToggles == old(pendingToggles)
    {
      var stopped := StopMonitoring();
      var setup := SetupEventTap(permitted, created);
      effects := stopped + setup;
    }

    /** handleKeyboardEvent (lines 363-384): the tap callback; the returned event is passed on. */
    method HandleKeyboardEvent(e: KeyEvent, nowMs: int) returns (out: KeyEvent)
      modifies this
      ensures var step := OnEvent(old(Shift()), e, nowMs);
              Shift() == step.state && out == step.event && pendingToggles == old(pendingToggles) + step.toggles
      ensures Tap() == old(Tap())
    {
      match e.kind
      case KeyDown => out := HandleKeyDown(e);
      case KeyUp => out := HandleKeyUp(e);
      case FlagsChanged => out := HandleFlagsChanged(e, nowMs);
      case OtherKind => out := e;
    }

    /** handleKeyDown (lines 387-397). */
    method HandleKeyDown(e: KeyEvent) returns (out: KeyEvent)
      modifies this
      ensures Shift() == OnKeyDown(old(Shift()), e.code) && out == e
      ensures Tap() == old(Tap()) && pendingToggles == old(pendingToggles)
    {
      if leftShiftPressed || rightShiftPressed {
        if e.code != LeftShiftCode && e.code != RightShiftCode {
          otherKeyPressed := true;
        }
      }
      out := e;
    }

    /** handleKeyUp (lines 400-402): pass the event on, change nothing. */
    method HandleKeyUp(e: KeyEvent) returns (out: KeyEvent)
      ensures out == e
    {
      out := e;
    }

    /** The asynchronous toggle request of lines 450-452 and 472-474. */
    method ScheduleToggle()
      modifies this`pendingToggles
      ensures pendingToggles == old(pendingToggles) + 1
    {
      pendingToggles := pendingToggles + 1;
    }

    /** The left-Shift block of handleFlagsChanged (lines 434-454). */
    method UpdateLeftShift(leftShiftDown: bool, nowMs: int)
      modifies this
      ensures var r := UpdateSide(old(Shift()), Left, leftShiftDown, nowMs);
              Shift() == r.state && pendingToggles == old(pendingToggles) + r.toggles
      ensures Tap() == old(Tap())
    {
      if !leftShiftPressed && leftShiftDown {
        leftShiftPressed := true;
        shiftPressTime := nowMs;
        otherKeyPressed := false;
      } else if leftShiftPressed && !leftShiftDown {
        leftShiftPressed := false;
        var duration := nowMs - shiftPressTime;
        if !otherKeyPressed && duration > MinTapMs && duration < MaxTapMs {
          ScheduleToggle();
        }
      }
    }

    /** The right-Shift block of handleFlagsChanged (lines 456-476). */
    method UpdateRightShift(rightShiftDown: bool, nowMs: int)
      modifies this
      ensures var r := UpdateSide(old(Shift()), Right, rightShiftDown, nowMs);
              Shift() == r.state && pendingToggles == old(pendingToggles) + r.toggles
      ensures Tap() == old(Tap())
    {
      if !rightShiftPressed && rightShiftDown {
        rightShiftPressed := true;
        shiftPressTime := nowMs;
        otherKeyPressed := false;
      } else if rightShiftPressed && !rightShiftDown {
        rightShiftPressed := false;
        var duration := nowMs - shiftPressTime;
        if !otherKeyPressed && duration > MinTapMs && duration < MaxTapMs {
          ScheduleToggle();
        }
      }
    }

    /** handleFlagsChanged (lines 405-479). */
    method HandleFlagsChanged(e: KeyEvent, nowMs: int) returns (out: KeyEvent)
      modifies this
      ensures var step := OnFlagsChanged(old(Shift()), e, nowMs);
              Shift() == step.state && out == step.event && pendingToggles == old(pendingToggles) + step.toggles
      ensures Tap() == old(Tap())
    {
      if e.code == CapsLockCode {
        if HasFlag(e.flags, AlphaShiftMask) {
          out := e.(flags := AlphaShiftMask);
        } else {
          out := e.(flags := 0);
        }
        return;
      }

      var leftShiftDown := HasFlag(e.flags, ShiftMask) && e.code == LeftShiftCode;
      var rightShiftDown := HasFlag(e.flags, ShiftMask) && e.code == RightShiftCode;
      UpdateLeftShift(leftShiftDown, nowMs);
      UpdateRightShift(rightShiftDown, nowMs);
      out := e;
    }
  }
}
