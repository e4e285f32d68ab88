/**
 * The engine's key codes (`hell_input::keycodes`). The enum is `#[repr(u32)]`
 * with implicit discriminants, so a key code is exactly a `u32` below the
 * variant count, and each variant is the constant naming its discriminant
 * (declaration order, from 0). The fallible conversion from a raw `u32` is the
 * one the platform layer uses before it reaches the input manager.
 */
module KeyCodes {
  import opened Wrappers
  import opened HellErrors
  import Text

  /** `KeyCode::COUNT`, the number of variants (derived by `strum::EnumCount`). */
  const KEY_CODE_COUNT: nat := 87

  /** A key code, by its discriminant. */
  newtype KeyCode = v: int | 0 <= v < 87

  const Invalid: KeyCode := 0
  const A: KeyCode := 1
  const B: KeyCode := 2
  const C: KeyCode := 3
  const D: KeyCode := 4
  const E: KeyCode := 5
  const F: KeyCode := 6
  const G: KeyCode := 7
  const H: KeyCode := 8
  const I: KeyCode := 9
  const J: KeyCode := 10
  const K: KeyCode := 11
  const L: KeyCode := 12
  const M: KeyCode := 13
  const N: KeyCode := 14
  const O: KeyCode := 15
  const P: KeyCode := 16
  const Q: KeyCode := 17
  const R: KeyCode := 18
  const S: KeyCode := 19
  const T: KeyCode := 20
  const U: KeyCode := 21
  const V: KeyCode := 22
  const W: KeyCode := 23
  const X: KeyCode := 24
  const Y: KeyCode := 25
  const Z: KeyCode := 26
  const Alpha0: KeyCode := 27
  const Alpha1: KeyCode := 28
  const Alpha2: KeyCode := 29
  const Alpha3: KeyCode := 30
  const Alpha4: KeyCode := 31
  const Alpha5: KeyCode := 32
  const Alpha6: KeyCode := 33
  const Alpha7: KeyCode := 34
  const Alpha8: KeyCode := 35
  const Alpha9: KeyCode := 36
  const Numpad0: KeyCode := 37
  const Numpad1: KeyCode := 38
  const Numpad2: KeyCode := 39
  const Numpad3: KeyCode := 40
  const Numpad4: KeyCode := 41
  const Numpad5: KeyCode := 42
  const Numpad6: KeyCode := 43
  const Numpad7: KeyCode := 44
  const Numpad8: KeyCode := 45
  const Numpad9: KeyCode := 46
  const ArrowUp: KeyCode := 47
  const ArrowDown: KeyCode := 48
  const ArrowRight: KeyCode := 49
  const ArrowLeft: KeyCode := 50
  const F1: KeyCode := 51
  const F2: KeyCode := 52
  const F3: KeyCode := 53
  const F4: KeyCode := 54
  const F5: KeyCode := 55
  const F6: KeyCode := 56
  const F7: KeyCode := 57
  const F8: KeyCode := 58
  const F9: KeyCode := 59
  const F10: KeyCode := 60
  const F11: KeyCode := 61
  const F12: KeyCode := 62
  const F13: KeyCode := 63
  const F14: KeyCode := 64
  const F15: KeyCode := 65
  const F16: KeyCode := 66
  const F17: KeyCode := 67
  const F18: KeyCode := 68
  const F19: KeyCode := 69
  const F20: KeyCode := 70
  const F21: KeyCode := 71
  const F22: KeyCode := 72
  const F23: KeyCode := 73
  const F24: KeyCode := 74
  const ControlRight: KeyCode := 75
  const ControlLeft: KeyCode := 76
  const AltRight: KeyCode := 77
  const AltLeft: KeyCode := 78
  const ShiftLeft: KeyCode := 79
  const ShiftRight: KeyCode := 80
  const MetaLeft: KeyCode := 81
  const MetaRight: KeyCode := 82
  const Space: KeyCode := 83
  const Escape: KeyCode := 84
  const Return: KeyCode := 85
  const Backspace: KeyCode := 86

  /** The discriminant, `key as u32` (or `as usize` when it indexes the key-state table). */
  function ToU32(k: KeyCode): (v: nat)
    ensures v < KEY_CODE_COUNT
  {
    k as nat
  }

  /** `FromPrimitive::from_u32` as derived: the variant whose discriminant is `v`, if there is one. */
  function FromU32(v: nat): (r: Option<KeyCode>)
    ensures r.Some? <==> v < KEY_CODE_COUNT
    ensures r.Some? ==> ToU32(r.value) == v
  {
    if v < KEY_CODE_COUNT then Some(v as KeyCode) else None
  }

  /** The message of the error `try_from` returns for a value that is no key code. */
  function ConvertMsg(v: nat): string
  {
    "failed to convert '" + Text.NatToString(v) + "' to KeyCode"
  }

  /** `TryFrom<u32> for KeyCode`: the variant with that discriminant, or a generic error naming `v`. */
  function TryFromU32(v: nat): (r: HellResult<KeyCode>)
    requires v <= U32_MAX
    ensures r.Ok? <==> v < KEY_CODE_COUNT
    ensures r.Ok? ==> ToU32(r.value) == v
    ensures r.Err? ==> r.error == FromMsg(GenericError, ConvertMsg(v))
  {
    match FromU32(v)
    case Some(k) => Ok(k)
    case None => Err(HellError(GenericError, Message(ConvertMsg(v))))
  }

  /** Converting a key code to its discriminant and back gives the same key code. */
  lemma FromToU32(k: KeyCode)
    ensures FromU32(ToU32(k)) == Some(k)
    ensures TryFromU32(ToU32(k)) == Ok(k)
  {
  }

  /** The error for a value past the last variant names that value, so distinct values give distinct errors. */
  lemma OutOfRangeErrorsDiffer(v1: nat, v2: nat)
    requires KEY_CODE_COUNT <= v1 <= U32_MAX && KEY_CODE_COUNT <= v2 <= U32_MAX && v1 != v2
    ensures TryFromU32(v1).Err? && TryFromU32(v2).Err?
    ensures TryFromU32(v1).error != TryFromU32(v2).error
  {
    if ConvertMsg(v1) == ConvertMsg(v2) {
      var p := "failed to convert '";
      var t := "' to KeyCode";
      var s1 := Text.NatToString(v1);
      var s2 := Text.NatToString(v2);
      assert ConvertMsg(v1) == p + s1 + t;
      assert ConvertMsg(v2) == p + s2 + t;
      assert |s1| == |s2|;
      assert forall i :: 0 <= i < |s1| ==> s1[i] == ConvertMsg(v1)[|p| + i];
      assert forall i :: 0 <= i < |s2| ==> s2[i] == ConvertMsg(v2)[|p| + i];
      assert s1 == s2;
      Text.NatToStringInjective(v1, v2);
      assert false;
    }
  }
}
