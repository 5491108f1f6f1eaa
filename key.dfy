/**
 * Keyboard modifier flags (src/api/display/key.rs): a wrapped XPLMKeyFlags
 * bitmap and one bit test per flag.
 */
module Keys {
  datatype KeyFlag = Shift | OptionAlt | Control | Down | Up

  // XPLMKeyFlags bits of the XPLM SDK (XPLMDefs.h).
  const SHIFT_FLAG: bv32 := 1
  const OPTION_ALT_FLAG: bv32 := 2
  const CONTROL_FLAG: bv32 := 4
  const DOWN_FLAG: bv32 := 8
  const UP_FLAG: bv32 := 16

  /** The SDK bit of each flag. */
  function Bit(f: KeyFlag): bv32 {
    match f
    case Shift => SHIFT_FLAG
    case OptionAlt => OPTION_ALT_FLAG
    case Control => CONTROL_FLAG
    case Down => DOWN_FLAG
    case Up => UP_FLAG
  }

  /** `KeyFlags`: the 32 bits of the C `int` the host passes. */
  datatype KeyFlags = KeyFlags(bits: bv32)

  /** `From<XPLMKeyFlags>`. */
  function FromRaw(raw: bv32): (k: KeyFlags)
    ensures k.bits == raw
  {
    KeyFlags(raw)
  }

  predicate ContainsShiftFlag(k: KeyFlags) { k.bits & SHIFT_FLAG != 0 }
  predicate ContainsOptionAltFlag(k: KeyFlags) { k.bits & OPTION_ALT_FLAG != 0 }

  /** `contains_control_flag` as written: it tests the option/alt bit. */
  predicate ContainsControlFlagAsWritten(k: KeyFlags) { k.bits & OPTION_ALT_FLAG != 0 }

  /** `contains_control_flag` as its documentation describes it: the control bit. */
  predicate ContainsControlFlag(k: KeyFlags) { k.bits & CONTROL_FLAG != 0 }

  predicate ContainsDownFlag(k: KeyFlags) { k.bits & DOWN_FLAG != 0 }
  predicate ContainsUpFlag(k: KeyFlags) { k.bits & UP_FLAG != 0 }

  /** `KeyFlags::contains`, with the corrected control test: every flag is its own bit. */
  function Contains(k: KeyFlags, f: KeyFlag): (b: bool)
    ensures b <==> k.bits & Bit(f) != 0
  {
    match f
    case Shift => ContainsShiftFlag(k)
    case OptionAlt => ContainsOptionAltFlag(k)
    case Control => ContainsControlFlag(k)
    case Down => ContainsDownFlag(k)
    case Up => ContainsUpFlag(k)
  }

  /** As written, asking for Control answers whether OptionAlt is set, for every bitmap. */
  lemma ControlAsWrittenIsOptionAlt(k: KeyFlags)
    ensures ContainsControlFlagAsWritten(k) <==> Contains(k, OptionAlt)
  {
  }

  /**
   * The host reports Control alone (bits 4): the code as written says no
   * Control; with Option/Alt alone (bits 2) it says Control.
   */
  lemma ControlAsWrittenCounterexample()
    ensures !ContainsControlFlagAsWritten(FromRaw(CONTROL_FLAG)) && Contains(FromRaw(CONTROL_FLAG), Control)
    ensures ContainsControlFlagAsWritten(FromRaw(OPTION_ALT_FLAG)) && !Contains(FromRaw(OPTION_ALT_FLAG), Control)
  {
  }

  /** The bitmap the host sends when every flag in `fs` is active. */
  function Bitmap(fs: seq<KeyFlag>): bv32 {
    if fs == [] then 0 else Bit(fs[0]) | Bitmap(fs[1..])
  }

  /** Flags are independent: a combined bitmap contains exactly the flags it was built from. */
  lemma {:induction false} BitmapContainsExactly(fs: seq<KeyFlag>, f: KeyFlag)
    ensures Contains(FromRaw(Bitmap(fs)), f) <==> f in fs
  {
    if fs != [] {
      BitmapContainsExactly(fs[1..], f);
      assert fs == [fs[0]] + fs[1..];
    }
  }
}
