/**
 * The event-tap lifecycle of KeyboardMonitor (ShiftSwitch/ShiftSwitchApp.swift:287-359,
 * 482-500) as pure transitions. The tap and its run-loop source are modelled by whether
 * they exist; the OS calls made on them are recorded, in order, as effects. The three OS
 * answers (AXIsProcessTrusted, whether CGEvent.tapCreate returned a tap, and
 * CGEvent.tapIsEnabled) are parameters.
 */
module Lifecycle {

  /** `eventTap != nil`, `runLoopSource != nil` and `isMonitoringActive`. */
  datatype TapState = TapState(hasEventTap: bool, hasRunLoopSource: bool, isMonitoringActive: bool)

  /** The OS calls the lifecycle makes on the tap and the run loop. */
  datatype TapEffect =
    | TapDisabled     // CGEvent.tapEnable(tap:, enable: false)
    | SourceRemoved   // CFRunLoopRemoveSource
    | TapRequested    // CGEvent.tapCreate
    | SourceAdded     // CFMachPortCreateRunLoopSource and CFRunLoopAddSource
    | TapEnabled      // CGEvent.tapEnable(tap:, enable: true)

  datatype Transition = Transition(state: TapState, effects: seq<TapEffect>)

  const Stopped := TapState(false, false, false)

  /** The monitor is active exactly when it holds a tap, and a tap always has its run-loop source. */
  predicate Consistent(s: TapState) {
    s.isMonitoringActive == s.hasEventTap && s.hasRunLoopSource == s.hasEventTap
  }

  /** stopMonitoring (lines 482-493). */
  function Stop(s: TapState): (r: Transition)
    ensures r.state == Stopped
    ensures r.effects == [] <==> !s.hasEventTap
    ensures s.hasEventTap ==> r.effects[0] == TapDisabled
    ensures Consistent(s) && s.hasEventTap ==> r.effects == [TapDisabled, SourceRemoved]
    ensures forall k :: 0 <= k < |r.effects| ==> r.effects[k] == TapDisabled || r.effects[k] == SourceRemoved
  {
    var effects :=
      if s.hasEventTap then [TapDisabled] + (if s.hasRunLoopSource then [SourceRemoved] else [])
      else [];
    Transition(Stopped, effects)
  }

  /** setupEventTap (lines 315-359): tear down any old tap, then create, register and enable a new one. */
  function Setup(s: TapState, permitted: bool, created: bool): (r: Transition)
    ensures r.state.isMonitoringActive <==> permitted && created
    ensures r.state.isMonitoringActive == r.state.hasEventTap
    ensures Consistent(s) ==> Consistent(r.state)
    // An old tap is torn down before anything else happens.
    ensures |Stop(s).effects| <= |r.effects| && r.effects[..|Stop(s).effects|] == Stop(s).effects
    // After it, at most request, register and enable, in that order, and nothing else.
    ensures |r.effects| - |Stop(s).effects| <= 3
    ensures r.effects[|Stop(s).effects|..] == [TapRequested, SourceAdded, TapEnabled][..|r.effects| - |Stop(s).effects|]
    // A tap is requested only with permission, and delivery is enabled last, only on success.
    ensures TapRequested in r.effects <==> permitted
    ensures SourceAdded in r.effects <==> permitted && created
    ensures TapEnabled in r.effects <==> permitted && created
    ensures permitted && created ==> r.effects[|r.effects| - 1] == TapEnabled
  {
    Create(Teardown(s), permitted, created)
  }

  /** The cleanup that opens setupEventTap (lines 318-322): stop only when a tap exists. */
  function Teardown(s: TapState): (r: Transition)
    ensures !r.state.hasEventTap
    ensures r.effects == [] <==> !s.hasEventTap
    ensures Consistent(s) ==> r.state == Stopped
    ensures !s.hasEventTap ==> r.state == s
  {
    if s.hasEventTap then Stop(s) else Transition(s, [])
  }

  /** The rest of setupEventTap (lines 324-358), after the cleanup `stopped`. */
  function Create(stopped: Transition, permitted: bool, created: bool): (r: Transition)
    // The cleanup's effects come first; what follows is this step's own.
    ensures |stopped.effects| <= |r.effects| && r.effects[..|stopped.effects|] == stopped.effects
    // Nothing else follows, and what follows is in the order request, register, enable.
    ensures |r.effects| - |stopped.effects| <= 3
    ensures r.effects[|stopped.effects|..] == [TapRequested, SourceAdded, TapEnabled][..|r.effects| - |stopped.effects|]
    ensures TapRequested in r.effects[|stopped.effects|..] <==> permitted
    ensures SourceAdded in r.effects[|stopped.effects|..] <==> permitted && created
    ensures TapEnabled in r.effects[|stopped.effects|..] <==> permitted && created
    ensures r.state.isMonitoringActive <==> permitted && created
    ensures permitted && created ==> r.state == TapState(true, true, true)
    // Failing steps leave the run-loop source as the cleanup left it.
    ensures !(permitted && created) ==> r.state.hasRunLoopSource == stopped.state.hasRunLoopSource
    ensures !stopped.state.hasEventTap ==> r.state.hasEventTap == r.state.isMonitoringActive
  {
    if !permitted then
      Transition(stopped.state.(isMonitoringActive := false), stopped.effects)
    else if !created then
      Transition(stopped.state.(hasEventTap := false, isMonitoringActive := false), stopped.effects + [TapRequested])
    else
      Transition(TapState(true, true, true), stopped.effects + [TapRequested, SourceAdded, TapEnabled])
  }

  /** checkAndUpdatePermissionStatus (lines 287-303), run by the two-second timer. */
  function Supervise(s: TapState, permitted: bool, created: bool, stillEnabled: bool): (r: Transition)
    // Revoked permission always ends inactive; granted permission with a successful creation always ends active.
    ensures !permitted ==> !r.state.isMonitoringActive
    ensures permitted && created ==> r.state.isMonitoringActive
    // A fresh grant starts monitoring exactly when the tap can be created.
    ensures permitted && !s.isMonitoringActive ==> r.state.isMonitoringActive == created
    // A healthy tap is left alone.
    ensures permitted && s.isMonitoringActive && (stillEnabled || !s.hasEventTap) ==> r == Transition(s, [])
    // Without permission, nothing is created.
    ensures !permitted ==> TapRequested !in r.effects
    // A tap that the OS disabled is torn down and rebuilt.
    ensures Consistent(s) && permitted && s.isMonitoringActive && !stillEnabled ==>
              r.state.isMonitoringActive == created && 2 <= |r.effects| && r.effects[..2] == [TapDisabled, SourceRemoved]
    ensures Consistent(s) ==> Consistent(r.state)
    // Each row of the decision table hands over to the operation it names, effects included.
    ensures permitted && !s.isMonitoringActive ==> r == Setup(s, permitted, created)
    ensures !permitted && s.isMonitoringActive ==> r == Stop(s)
    ensures !permitted && !s.isMonitoringActive ==> r == Transition(s, [])
    ensures permitted && s.isMonitoringActive && s.hasEventTap && !stillEnabled ==> r == Setup(s, permitted, created)
    // A tap is requested exactly on a fresh grant or a rebuild.
    ensures TapRequested in r.effects <==>
              permitted && (!s.isMonitoringActive || (s.hasEventTap && !stillEnabled))
    // A revocation of a consistent, active monitor disables the tap and removes its source.
    ensures Consistent(s) && !permitted && s.isMonitoringActive ==> r.effects == [TapDisabled, SourceRemoved]
  {
    if permitted && !s.isMonitoringActive then Setup(s, permitted, created)
    else if !permitted && s.isMonitoringActive then Stop(s)
    else if permitted && s.isMonitoringActive && s.hasEventTap && !stillEnabled then Setup(s, permitted, created)
    else Transition(s, [])
  }

  /** reinitializeMonitoring (lines 496-500): stop, then set up again. */
  function Reinitialize(s: TapState, permitted: bool, created: bool): (r: Transition)
    ensures r.state.isMonitoringActive <==> permitted && created
    ensures Consistent(r.state)
    // The tap found at the start is disabled exactly once: the set-up step finds nothing left to stop.
    ensures r.effects == Stop(s).effects + Setup(Stopped, permitted, created).effects
  {
    var stopped := Stop(s);
    var setup := Setup(stopped.state, permitted, created);
    Transition(setup.state, stopped.effects + setup.effects)
  }

  /** Stopping twice is stopping once: the second stop changes nothing and makes no OS call. */
  lemma StopIdempotent(s: TapState)
    ensures Stop(Stop(s).state) == Transition(Stop(s).state, [])
  {
  }

  /** What can happen to the monitor: a timer tick, or a call from the application shell. */
  datatype Op =
    | Tick(permitted: bool, created: bool, stillEnabled: bool)
    | StopOp
    | Reinit(permitted: bool, created: bool)

  function Apply(s: TapState, op: Op): Transition {
    match op
    case Tick(p, c, e) => Supervise(s, p, c, e)
    case StopOp => Stop(s)
    case Reinit(p, c) => Reinitialize(s, p, c)
  }

  /** The state after a sequence of operations. */
  function RunOps(s: TapState, ops: seq<Op>): TapState
    decreases |ops|
  {
    if |ops| == 0 then s else RunOps(Apply(s, ops[0]).state, ops[1..])
  }

  /** The state after `ops + [op]` is the state after `op` applied to the state after `ops`. */
  lemma {:induction false} RunOpsSnoc(s: TapState, ops: seq<Op>, op: Op)
    ensures RunOps(s, ops + [op]) == Apply(RunOps(s, ops), op).state
    decreases |ops|
  {
    if |ops| == 0 {
      assert [op][1..] == [];
    } else {
      assert (ops + [op])[1..] == ops[1..] + [op];
      RunOpsSnoc(Apply(s, ops[0]).state, ops[1..], op);
    }
  }

  /**
   * Whatever the OS answers and whatever the shell calls, the monitor stays consistent:
   * it is active exactly when it holds a tap.
   */
  lemma {:induction false} AlwaysConsistent(s: TapState, ops: seq<Op>)
    requires Consistent(s)
    ensures Consistent(RunOps(s, ops))
    decreases |ops|
  {
    if |ops| > 0 {
      AlwaysConsistent(Apply(s, ops[0]).state, ops[1..]);
    }
  }

  /**
   * Supervision heals without manual action: after any history from a stopped monitor, the
   * next tick with permission and a successful creation leaves monitoring active, and the
   * next tick without permission leaves it inactive.
   */
  lemma {:induction false} NextTickDecides(ops: seq<Op>, created: bool, stillEnabled: bool)
    ensures RunOps(Stopped, ops + [Tick(true, true, stillEnabled)]).isMonitoringActive
    ensures !RunOps(Stopped, ops + [Tick(false, created, stillEnabled)]).isMonitoringActive
  {
    RunOpsSnoc(Stopped, ops, Tick(true, true, stillEnabled));
    RunOpsSnoc(Stopped, ops, Tick(false, created, stillEnabled));
  }
}
