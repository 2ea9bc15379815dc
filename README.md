# ShiftSwitch core in Dafny

ShiftSwitch is a macOS menu-bar utility. It turns a lone tap of either Shift key into an
input-source switch between a Latin keyboard layout and a Chinese (CJK-style) input method.
It also keeps Caps Lock a pure case lock, stripping every other modifier from its events.
This project models the part of the program that makes decisions:

- **EventFlags** (`event_flags.dfy`) covers the two modifier masks and the Caps Lock flag
  rewrite.
- **ShiftTap** (`shift_tap.dfy`) is the Shift-tap detector as a pure state machine over a
  value `ShiftState`. It has one step per event kind, `Run` over an event trace, and lemmas
  about traces: a tap cycle, holds outside the window, chords, the one-side-at-a-time
  invariant.
- **Lifecycle** (`lifecycle.dfy`) is the event tap's life cycle as a value `TapState`.
  Each operation returns the new state and the ordered list of OS effects it performs. The
  module covers stop, setup, the permission supervisor's tick and reinitialisation, plus the
  invariant that they keep across any sequence of operations.
- **InputSources** (`input_sources.dfy`, with `text.dfy` for substring search) covers the
  selection made by `toggleInputSource`:
  - the classification of input sources;
  - the candidate lists;
  - the choice of target.

  An imperative method has the source's three loops, including the one with `break`. It is
  proved equal to the pure decision `ToggleDecision`.
- **Monitor** (`keyboard_monitor.dfy`) is the `KeyboardMonitor` object as a class. Its
  fields are updated in place by methods that mirror the Swift methods branch for branch. Each
  method is proved to leave the object in the state that the ShiftTap or Lifecycle function
  computes from the old state.

The OS is reached only through parameters:

- `permitted` is `AXIsProcessTrusted()`;
- `created` is whether `CGEvent.tapCreate` returned a tap;
- `stillEnabled` is `CGEvent.tapIsEnabled`;
- `selectSucceeds` is `TISSelectInputSource` returning `noErr`;
- `nowMs` is the clock.

Input sources are values that carry the properties the code reads.

Time is whole milliseconds. The source's tap window `duration > 0.05 && duration < 0.5` (in
seconds) becomes `50 < d < 500`.

### Behaviour a reader might not expect (the model follows the code as written)

- **One shared timestamp and flag.** The two Shift sides share `shiftPressTime` and
  `otherKeyPressed`.
- **Any flags event ends a hold.** Every flags-changed event that is not Caps Lock releases a
  held side, unless it is a Shift-down for that same side. So the two sides are never held at
  once (`ShiftTap.OneSideAtATime`).
- **Pressing Left cancels a Right hold, not the reverse.** A left press while Right is held
  cancels the Right hold without toggling (`ShiftTap.LeftPressCancelsRightHold`).
- **A Shift+Shift chord can toggle twice.** It can produce two toggle requests
  (`ShiftTap.ShiftChordTogglesTwice`).
- **Shift key-downs are ignored.** A key-down carrying a Shift key code does not mark the tap
  as a combination.
- **The last Latin layout wins.** One might expect the first matching Latin layout to be the
  English target, but `englishSource` is overwritten by every later match (line 182). So the
  last one in enumeration order is chosen (`InputSources.LastEnglishIndex`,
  `InputSources.CjkCurrentSelectsLastLatin`).
- **The current source is classified by id only.** Candidates are classified by id *or* name,
  but the current source only by id. A source that is CJK-style only by its name is
  therefore never recognised as current, and the toggle keeps reselecting it
  (`InputSources.NameOnlyCjkCurrentNeverReturnsToLatin`).

## Model

| member | source | states |
|---|---|---|
| EventFlags.CapsLockFlags | ShiftSwitch/ShiftSwitchApp.swift:415-426 | A Caps Lock event's flags become exactly the case-lock bit or nothing. The case-lock bit is kept iff it was set, and no other bit (in particular Shift) survives. |
| Text.ContainsAny | ShiftSwitch/ShiftSwitchApp.swift:165-174 | The OR-chain of `contains` tests holds iff some listed fragment occurs in the string. |
| Text.PrefixContained | ShiftSwitch/ShiftSwitchApp.swift:178-180 | A string that begins with a fragment contains it. |
| ShiftTap.UpdateSide | ShiftSwitch/ShiftSwitchApp.swift:435-476 | One side's press/release step: the side's pressed flag becomes the key state and the other side is untouched. One toggle is issued exactly when a held side is released inside the 50-500 ms window with no other key seen. A press stamps the time and clears the other-key mark, and nothing else moves them. |
| ShiftTap.OnKeyDown | ShiftSwitch/ShiftSwitchApp.swift:387-397 | A key-down changes only the other-key mark. The mark becomes set iff it was set, or a side is held and the key is not a Shift key. |
| ShiftTap.OnFlagsChanged | ShiftSwitch/ShiftSwitchApp.swift:405-479 | A Caps Lock event leaves the state alone and only rewrites its flags. Any other event passes unchanged and sets each side's pressed flag to "this event is that side's Shift-down", so at most one side stays held. It gives the toggle count for each held-side case and the time/mark reset rules. |
| ShiftTap.OnEvent | ShiftSwitch/ShiftSwitchApp.swift:363-384 | Dispatch by event kind. The passed-on event is the normalised one, and only flags-changed events toggle. Key-up and other kinds change nothing. With at most one side held, that stays true and at most one toggle happens. |
| ShiftTap.Run | ShiftSwitch/ShiftSwitchApp.swift:363-384 | Over a trace, every event is passed on (normalised) in order, one output per input. |
| ShiftTap.AnyOtherKeyDown | ShiftSwitch/ShiftSwitchApp.swift:387-397 | True iff the trace contains a key-down of a non-Shift key. |
| ShiftTap.RunAppend | ShiftSwitch/ShiftSwitchApp.swift:363-384 | Running a concatenated trace is running its parts one after another: states chain, outputs concatenate, toggles add. |
| ShiftTap.NeutralRun | ShiftSwitch/ShiftSwitchApp.swift:387-402 | Key-downs, key-ups, other kinds and Caps Lock events never toggle and never move a side or the press time. The other-key mark ends set iff it started set or some non-Shift key-down occurred while a side was held. |
| ShiftTap.TapCycle | ShiftSwitch/ShiftSwitchApp.swift:435-476 | From idle: a Shift press, any neutral middle, and an event that ends the hold issue exactly one toggle iff no other key went down and the hold lasted 50-500 ms, else none. The side ends released. |
| ShiftTap.OneSideAtATime | ShiftSwitch/ShiftSwitchApp.swift:428-476 | From a state with at most one side held, every trace keeps at most one side held, at its end and before each of its events. Each event therefore schedules at most one toggle, so a trace schedules at most one per event in total. |
| ShiftTap.StepOfRun | ShiftSwitch/ShiftSwitchApp.swift:363-384 | The k-th event of a trace is handled from the state its first k events reach; its output and toggles are appended to theirs. |
| ShiftTap.LeftShiftTapScenario | ShiftSwitch/ShiftSwitchApp.swift:442-452 | A left-Shift press released 150 ms later toggles once. |
| ShiftTap.ShiftWithLetterScenario | ShiftSwitch/ShiftSwitchApp.swift:387-397 | Shift held while the "A" key goes down, released in the window, does not toggle. |
| ShiftTap.HoldOutsideWindowScenarios | ShiftSwitch/ShiftSwitchApp.swift:447 | Hold times of 20 ms and 600 ms do not toggle. |
| ShiftTap.RunOne | ShiftSwitch/ShiftSwitchApp.swift:363-384 | A one-event trace is one `OnEvent` step. |
| ShiftTap.ShiftChordTogglesTwice | ShiftSwitch/ShiftSwitchApp.swift:435-476 | Left down, Right down, Right up, Left up at 100 ms spacing yields two toggle requests. |
| ShiftTap.LeftPressCancelsRightHold | ShiftSwitch/ShiftSwitchApp.swift:428-476 | A left-Shift press while Right is held holds Left, releases Right, and issues no toggle. |
| Lifecycle.Stop | ShiftSwitch/ShiftSwitchApp.swift:482-493 | Afterwards no tap, no source and not active. Effects are empty iff there was no tap and start with disabling the tap; for a consistent state they are exactly disable-then-remove-source. |
| Lifecycle.Setup | ShiftSwitch/ShiftSwitchApp.swift:315-359 | Monitoring is active iff permission and creation both succeed, and active coincides with having a tap. Consistency is preserved. The effects start with the cleanup of `stopMonitoring`. After it come at most a tap request, the run-loop registration and the enabling, in that order and nothing else: the request iff permitted, the other two iff also created. |
| Lifecycle.Teardown | ShiftSwitch/ShiftSwitchApp.swift:318-322 | The cleanup leaves no tap, performs effects iff a tap existed, reaches the stopped state from a consistent one, and leaves a tap-less state unchanged. |
| Lifecycle.Create | ShiftSwitch/ShiftSwitchApp.swift:324-358 | After the cleanup's effects come at most request, register and enable, in that order and nothing else: a tap is requested iff permitted; its source is added and it is enabled iff also created. Monitoring ends active iff both, and then with tap and source. On failure the run-loop source is as the cleanup left it. |
| Lifecycle.Supervise | ShiftSwitch/ShiftSwitchApp.swift:287-303 | The supervisor tick, row by row, effects included. A fresh grant is exactly `Setup` and a revocation exactly `Stop` (disable the tap, remove its source). A disabled tap is rebuilt by `Setup`, and an idle tick without permission, or a healthy active tap, does nothing. A tap is requested iff permitted and the monitor is inactive or its tap disabled. Without permission it ends inactive; with permission and a created tap, active. Consistency is preserved. |
| Lifecycle.Reinitialize | ShiftSwitch/ShiftSwitchApp.swift:496-500 | Active iff permitted and created, consistent whatever the start state. The effects are those of stopping followed by those of setup from the stopped state. |
| Lifecycle.StopIdempotent | ShiftSwitch/ShiftSwitchApp.swift:482-493 | Stopping a stopped tap changes nothing and performs no effect. |
| Lifecycle.RunOpsSnoc | ShiftSwitch/ShiftSwitchApp.swift:287-303 | Running a sequence of operations then one more is the same as applying that one to the result. |
| Lifecycle.AlwaysConsistent | ShiftSwitch/ShiftSwitchApp.swift:287-303 | From a consistent state, any sequence of ticks, stops and reinitialisations keeps "active iff tap iff source". |
| Lifecycle.NextTickDecides | ShiftSwitch/ShiftSwitchApp.swift:287-303 | Whatever happened before, a tick that sees permission and a created tap leaves monitoring active; a tick that sees no permission leaves it inactive. |
| InputSources.LatinIdIsLayoutMarker | ShiftSwitch/ShiftSwitchApp.swift:178-180 | The Latin test holds iff the id contains `com.apple.keylayout`; the two explicit ids are subsumed. |
| InputSources.Group | ShiftSwitch/ShiftSwitchApp.swift:160-184 | A source is CJK-style iff its id or name contains a CJK marker. It is Latin-style iff it is not CJK-style and its id contains the layout marker. |
| InputSources.Available | ShiftSwitch/ShiftSwitchApp.swift:86-96 | `isInputSourceAvailable`: a source is available iff it is both enabled and select-capable. |
| InputSources.KeyboardSources | ShiftSwitch/ShiftSwitchApp.swift:147-153 | The keyboard-category filter keeps exactly the keyboard sources. |
| InputSources.ChineseCandidates | ShiftSwitch/ShiftSwitchApp.swift:159-177 | `chineseSources` holds exactly the available CJK-style sources. |
| InputSources.LastEnglishIndex | ShiftSwitch/ShiftSwitchApp.swift:178-184 | The index of the last available Latin-style source, or -1 if there is none. |
| InputSources.EnglishCandidate | ShiftSwitch/ShiftSwitchApp.swift:178-184 | `englishSource` is empty iff no available Latin-style source exists, otherwise it is one such source of the list. |
| InputSources.FirstPrimary | ShiftSwitch/ShiftSwitchApp.swift:188-196 | The `break` loop finds nothing iff no source is ITABC/Pinyin, otherwise a source that is ITABC/Pinyin. |
| InputSources.ChineseTarget | ShiftSwitch/ShiftSwitchApp.swift:188-201 | `chineseSource` is empty iff there are no candidates; it is a candidate, and primary unless no candidate is. |
| InputSources.ToggleDecision | ShiftSwitch/ShiftSwitchApp.swift:139-235 | No current source or id means failure. Any target is an enabled, available keyboard source. From a current CJK-style id it is the Latin choice, otherwise the Chinese choice; no target means failure. |
| InputSources.KeyboardSnoc | ShiftSwitch/ShiftSwitchApp.swift:147-153 | The filter processes one more source by appending it iff it is a keyboard source. |
| InputSources.ChineseSnoc | ShiftSwitch/ShiftSwitchApp.swift:175-177 | One more source is appended to `chineseSources` iff it is an available CJK-style source. |
| InputSources.EnglishSnoc | ShiftSwitch/ShiftSwitchApp.swift:181-183 | One more available Latin-style source overwrites `englishSource`, and any other source leaves it. |
| InputSources.CandidatesIgnoreNonKeyboard | ShiftSwitch/ShiftSwitchApp.swift:147-177 | Candidates depend only on the keyboard-category sources. |
| InputSources.ChineseIgnoresNonKeyboard | ShiftSwitch/ShiftSwitchApp.swift:147-177 | `chineseSources` is the same whether or not the keyboard-category filter ran first. |
| InputSources.EnglishIgnoresNonKeyboard | ShiftSwitch/ShiftSwitchApp.swift:147-184 | `englishSource` is the same whether or not the keyboard-category filter ran first. |
| InputSources.FirstPrimaryAppend | ShiftSwitch/ShiftSwitchApp.swift:188-196 | The search over a concatenation finds the first part's primary if it has one, else the second's. |
| InputSources.FirstPrimaryCandidate | ShiftSwitch/ShiftSwitchApp.swift:188-196 | The first available ITABC/Pinyin CJK-style source in enumeration order is the one chosen by the `break` loop. |
| InputSources.NoPrimaryCandidate | ShiftSwitch/ShiftSwitchApp.swift:189-196 | With no available CJK-style source that is ITABC/Pinyin, the `break` loop finds nothing. |
| InputSources.NoCandidates | ShiftSwitch/ShiftSwitchApp.swift:159-177 | With no available CJK-style source, `chineseSources` is empty. |
| InputSources.FirstCandidate | ShiftSwitch/ShiftSwitchApp.swift:199-201 | The first available CJK-style source in enumeration order heads `chineseSources`. |
| InputSources.LatinCurrentSelectsFirstPrimary | ShiftSwitch/ShiftSwitchApp.swift:212-215 | From a non-CJK current source, the toggle selects the first available ITABC/Pinyin input method. |
| InputSources.LatinCurrentSelectsFirstCandidate | ShiftSwitch/ShiftSwitchApp.swift:199-215 | From a non-CJK current source with no primary candidate, the toggle selects the first available CJK-style source. |
| InputSources.CjkCurrentSelectsLastLatin | ShiftSwitch/ShiftSwitchApp.swift:212-213 | From a CJK-style current id, the toggle selects the last available Latin layout in enumeration order. |
| InputSources.NameOnlyCjkCurrentNeverReturnsToLatin | ShiftSwitch/ShiftSwitchApp.swift:205-215 | A source CJK-style only by name is chosen from a Latin current source and chosen again from itself, so the toggle never returns to Latin. |
| InputSources.FilterKeyboardSources | ShiftSwitch/ShiftSwitchApp.swift:147-153 | The filter loop returns exactly `KeyboardSources`: the keyboard sources in enumeration order. |
| InputSources.CollectCandidates | ShiftSwitch/ShiftSwitchApp.swift:160-186 | Over keyboard sources, the classification loop yields exactly `ChineseCandidates` and `EnglishCandidate`. |
| InputSources.PickChineseSource | ShiftSwitch/ShiftSwitchApp.swift:188-201 | The `break` loop plus the fallback yields exactly `ChineseTarget`: the first ITABC/Pinyin candidate, else the first candidate, else none. |
| InputSources.ToggleInputSource | ShiftSwitch/ShiftSwitchApp.swift:139-235 | Built from the three loop methods, the imperative selection makes exactly the decision `ToggleDecision`, and reports success iff it had a target and the selection call succeeded. |
| Monitor.KeyboardMonitor.constructor | ShiftSwitch/ShiftSwitchApp.swift:258-262 | A new monitor is idle, has no pending toggle, and is in the state of a setup from stopped. |
| Monitor.KeyboardMonitor.StopMonitoring | ShiftSwitch/ShiftSwitchApp.swift:482-493 | The new lifecycle fields and effects are those of `Stop`; the detector is untouched. |
| Monitor.KeyboardMonitor.SetupEventTap | ShiftSwitch/ShiftSwitchApp.swift:315-359 | The new lifecycle fields and effects are those of `Setup`; the detector is untouched. |
| Monitor.KeyboardMonitor.CreateEventTap | ShiftSwitch/ShiftSwitchApp.swift:324-358 | After the cleanup, the lifecycle fields and effects are those of `Create`: nothing without permission, a request without a created tap, and request, register and enable on success. |
| Monitor.KeyboardMonitor.CheckAndUpdatePermissionStatus | ShiftSwitch/ShiftSwitchApp.swift:287-303 | The new lifecycle fields and effects are those of `Supervise`; the detector is untouched. |
| Monitor.KeyboardMonitor.ReinitializeMonitoring | ShiftSwitch/ShiftSwitchApp.swift:496-500 | The new lifecycle fields and effects are those of `Reinitialize`; the detector is untouched. |
| Monitor.KeyboardMonitor.HandleKeyboardEvent | ShiftSwitch/ShiftSwitchApp.swift:363-384 | The detector fields, the passed-on event and the added toggle requests are those of `OnEvent`; the lifecycle is untouched. |
| Monitor.KeyboardMonitor.HandleKeyDown | ShiftSwitch/ShiftSwitchApp.swift:387-397 | The detector fields become `OnKeyDown` of the old ones and the event passes unchanged. |
| Monitor.KeyboardMonitor.HandleKeyUp | ShiftSwitch/ShiftSwitchApp.swift:400-402 | A key-up passes unchanged. |
| Monitor.KeyboardMonitor.ScheduleToggle | ShiftSwitch/ShiftSwitchApp.swift:450-452 | Each scheduled toggle adds one pending request. |
| Monitor.KeyboardMonitor.UpdateLeftShift | ShiftSwitch/ShiftSwitchApp.swift:434-454 | The left block moves the detector fields and toggle requests exactly as `UpdateSide` for the left side. |
| Monitor.KeyboardMonitor.UpdateRightShift | ShiftSwitch/ShiftSwitchApp.swift:456-476 | The right block moves the detector fields and toggle requests exactly as `UpdateSide` for the right side. |
| Monitor.KeyboardMonitor.HandleFlagsChanged | ShiftSwitch/ShiftSwitchApp.swift:405-479 | The detector fields, the passed-on event and the added toggle requests are those of `OnFlagsChanged`; the lifecycle is untouched. |

## Left out

- Logging and the debug counters (`eventCount`, `shiftEventCount`, `capsLockEventCount`) affect no decision.
- Menu-bar UI and app delegate (lines 504-618): no decision logic beyond calling the modelled operations.
- `checkAccessibilityPermissions` (lines 306-312): a pass-through to the OS prompt; its answer is the `permitted` parameter.
- `startPermissionMonitoring`, `stopPermissionMonitoring` and `deinit`: the two-second `Timer` is not modelled. Each tick is one call of `CheckAndUpdatePermissionStatus`, and teardown is `StopMonitoring`.
- `getCurrentInputSource`, `getEnabledInputSources`, `getInputSourceID`, `getInputSourceName` and `debugAllInputSources` are OS queries. Their answers arrive as the `current` and `enabled` parameters, as optional id and name fields and as the keyboard, enabled and selectable flags of a source.
- Monitor.KeyboardMonitor.ScheduleToggle: `DispatchQueue.main.async` is modelled as a counter of pending requests. Running `toggleInputSource` later on the main queue is not modelled as part of the monitor.
- The tap callback's `userInfo` pointer (lines 333-343) and the retain/release of CoreFoundation objects are not modelled.
- Lifecycle.Supervise: `AXIsProcessTrusted()` is read once in `checkAndUpdatePermissionStatus` and again inside `setupEventTap`. The model uses one answer per tick, so a permission change between the two reads is not captured.
- Lifecycle.Setup: `CFMachPortCreateRunLoopSource` is taken to succeed whenever the tap was created.
- Monitor.KeyboardMonitor.HandleFlagsChanged: the source mutates the event object in place. The model returns the rewritten event as a new value, so aliasing of the event is not captured.
- ShiftTap.OnFlagsChanged: `CFAbsoluteTime` seconds (doubles) are modelled as whole milliseconds, so sub-millisecond durations at the window edges are not modelled.
- Text.ContainsAny: Swift's `String.contains` compares grapheme clusters. The model searches `seq<char>`, so Unicode normalisation is not modelled.
