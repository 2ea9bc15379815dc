/**
 * Modifier flags carried by a keyboard event (CGEventFlags), as a 64-bit mask,
 * and the Caps Lock rewrite of ShiftSwitch/ShiftSwitchApp.swift:415-426.
 */
module EventFlags {

  /** CGEventFlags.maskAlphaShift: the Caps Lock bit. */
  const AlphaShiftMask: bv64 := 0x1_0000
  /** CGEventFlags.maskShift: set while either Shift key is down. */
  const ShiftMask: bv64 := 0x2_0000

  /** OptionSet `contains`: every bit of `mask` is set in `flags`. */
  predicate HasFlag(flags: bv64, mask: bv64) {
    flags & mask == mask
  }

  /**
   * The flag set a Caps Lock flags-changed event leaves with: exactly the lock bit
   * when the lock is now engaged, no bit at all otherwise.
   */
  function CapsLockFlags(flags: bv64): (r: bv64)
    ensures r == AlphaShiftMask || r == 0
    ensures HasFlag(r, AlphaShiftMask) <==> HasFlag(flags, AlphaShiftMask)
    ensures r & !AlphaShiftMask == 0
    ensures !HasFlag(r, ShiftMask)
  {
    if HasFlag(flags, AlphaShiftMask) then AlphaShiftMask else 0
  }
}
