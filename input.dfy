/**
 * The input manager (`hell_input::input`): one state per key code, moved
 * along by the platform's key events and swept once per frame so that a
 * release is seen for exactly one frame; plus the modifier flags.
 */
module Input {
  import opened Wrappers
  import opened HellErrors
  import opened KeyCodes

  datatype KeyState = NeverUsed | Inactive | Pressed | Held | Released

  /** `KeyState::UP_STATES` and `KeyState::DOWN_STATES`. */
  const UP_STATES: seq<KeyState> := [Released, Inactive]
  const DOWN_STATES: seq<KeyState> := [Pressed, Held]

  /** `KeyState::is_up`: the state is one of the up states. */
  predicate IsUp(s: KeyState)
    ensures IsUp(s) <==> s == Released || s == Inactive
  {
    s in UP_STATES
  }

  /** `KeyState::is_down`: the state is one of the down states. */
  predicate IsDown(s: KeyState)
    ensures IsDown(s) <==> s == Pressed || s == Held
  {
    s in DOWN_STATES
  }

  /** A key is never both up and down, and a key never used is neither. */
  lemma UpDownExclusive(s: KeyState)
    ensures !(IsUp(s) && IsDown(s))
    ensures !IsUp(s) && !IsDown(s) <==> s == NeverUsed
  {
  }

  /** The modifier flags (`ModifiersState`, a `bitflags` set over `u32`). */
  type ModifiersState = bv32

  const SHIFT: ModifiersState := 0x4
  const LSHIFT: ModifiersState := 0x2
  const RSHIFT: ModifiersState := 0x1
  const CTRL: ModifiersState := 0x4 << 3
  const LCTRL: ModifiersState := 0x2 << 3
  const RCTRL: ModifiersState := 0x1 << 3
  const ALT: ModifiersState := 0x4 << 6
  const LALT: ModifiersState := 0x2 << 6
  const RALT: ModifiersState := 0x1 << 6
  const SUPER: ModifiersState := 0x4 << 9
  const LSUPER: ModifiersState := 0x2 << 9
  const RSUPER: ModifiersState := 0x1 << 9

  /** The twelve flags are distinct single bits: together they fill the low twelve bits. */
  lemma ModifierFlagsDisjoint()
    ensures SHIFT & LSHIFT == 0 && LSHIFT & RSHIFT == 0 && SHIFT & RSHIFT == 0
    ensures SHIFT | LSHIFT | RSHIFT | CTRL | LCTRL | RCTRL | ALT | LALT | RALT | SUPER | LSUPER | RSUPER == 0xFFF
    ensures (SHIFT | LSHIFT | RSHIFT) & (CTRL | LCTRL | RCTRL) == 0
    ensures (SHIFT | LSHIFT | RSHIFT | CTRL | LCTRL | RCTRL) & (ALT | LALT | RALT) == 0
    ensures (SHIFT | LSHIFT | RSHIFT | CTRL | LCTRL | RCTRL | ALT | LALT | RALT) & (SUPER | LSUPER | RSUPER) == 0
  {
  }

  /**
   * The state a key moves to when an event reports `incoming` while it is in
   * `current`: a press on a key already down makes it held; any other event
   * is taken as it comes.
   */
  function NextState(current: KeyState, incoming: KeyState): (r: KeyState)
    ensures IsDown(current) && incoming == Pressed ==> r == Held
    ensures !(IsDown(current) && incoming == Pressed) ==> r == incoming
    ensures IsDown(r) <==> IsDown(incoming)
  {
    match (current, incoming)
    case (Pressed, Pressed) => Held
    case (Held, Pressed) => Held
    case (_, s) => s
  }

  /** The per-frame sweep: every released key becomes inactive. */
  function ResetReleased(states: seq<KeyState>): (r: seq<KeyState>)
    ensures |r| == |states|
  {
    seq(|states|, i requires 0 <= i < |states| => if states[i] == Released then Inactive else states[i])
  }

  /** After the sweep no key is released; keys that were not released are untouched; up keys stay up. */
  lemma ResetReleasedSweeps(states: seq<KeyState>)
    ensures forall i :: 0 <= i < |states| ==> ResetReleased(states)[i] != Released
    ensures forall i :: 0 <= i < |states| && states[i] != Released ==> ResetReleased(states)[i] == states[i]
    ensures forall i :: 0 <= i < |states| ==> (IsUp(ResetReleased(states)[i]) <==> IsUp(states[i]))
    ensures forall i :: 0 <= i < |states| ==> (IsDown(ResetReleased(states)[i]) <==> IsDown(states[i]))
  {
  }

  /** Sweeping twice is sweeping once. */
  lemma ResetReleasedIdempotent(states: seq<KeyState>)
    ensures ResetReleased(ResetReleased(states)) == ResetReleased(states)
  {
  }

  /** The key codes the `Display` of the manager lists: those whose state is neither never-used nor inactive, in order. */
  function Reported(states: seq<KeyState>): (keys: seq<nat>)
    ensures forall j :: 0 <= j < |keys| ==> keys[j] < |states|
    ensures forall k :: 0 <= k < |states| ==> (k in keys <==> states[k] != NeverUsed && states[k] != Inactive)
    ensures forall j, l :: 0 <= j < l < |keys| ==> keys[j] < keys[l]
  {
    if |states| == 0 then []
    else
      var front := Reported(states[..|states| - 1]);
      if states[|states| - 1] != NeverUsed && states[|states| - 1] != Inactive
      then front + [|states| - 1]
      else front
  }

  /** A full press-hold-release cycle of one key, starting from a key never used. */
  lemma KeyLifecycle()
    ensures NextState(NeverUsed, Pressed) == Pressed
    ensures NextState(NextState(NeverUsed, Pressed), Pressed) == Held
    ensures NextState(Held, Released) == Released
    ensures ResetReleased([Released])[0] == Inactive
    ensures IsUp(NextState(Held, Released)) && IsDown(NextState(Inactive, Pressed))
  {
  }

  /** The input manager: the modifier flags and one state per key code. */
  class InputManager {
    var modifierStates: ModifiersState
    const keyStates: array<KeyState>

    ghost predicate Valid()
      reads this
    {
      keyStates.Length == KEY_CODE_COUNT
    }

    /** The key states, indexed by discriminant. */
    function States(): (s: seq<KeyState>)
      reads this, keyStates
      ensures |s| == keyStates.Length
    {
      keyStates[..]
    }

    /** `InputManager::new` (and `Default`): no modifier, every key never used. */
    constructor()
      ensures Valid() && fresh(keyStates)
      ensures modifierStates == 0
      ensures forall k :: 0 <= k < KEY_CODE_COUNT ==> keyStates[k] == NeverUsed
    {
      modifierStates := 0;
      keyStates := new KeyState[KEY_CODE_COUNT](_ => NeverUsed);
    }

    /** `update_key_state`: the key moves to its next state, no other key changes; it always succeeds. */
    method UpdateKeyState(keycode: KeyCode, newState: KeyState) returns (r: HellResult<()>)
      requires Valid()
      modifies keyStates
      ensures Valid() && r == Ok(())
      ensures States() == old(States())[ToU32(keycode) := NextState(old(States())[ToU32(keycode)], newState)]
    {
      var idx := ToU32(keycode);
      keyStates[idx] := NextState(keyStates[idx], newState);
      r := Ok(());
    }

    /** `key_state`: the state recorded for the key. */
    function KeyStateOf(keycode: KeyCode): (s: KeyState)
      requires Valid()
      reads this, keyStates
      ensures s == States()[ToU32(keycode)]
    {
      keyStates[ToU32(keycode)]
    }

    /** `update_modifiers_state`: the flags are replaced, the keys are untouched. */
    method UpdateModifiersState(newState: ModifiersState)
      modifies this
      ensures modifierStates == newState
    {
      modifierStates := newState;
    }

    /** `reset_released_keys`: the per-frame sweep over all keys. */
    method ResetReleasedKeys()
      requires Valid()
      modifies keyStates
      ensures Valid()
      ensures States() == ResetReleased(old(States()))
    {
      for i := 0 to keyStates.Length
        invariant forall j :: 0 <= j < i ==> keyStates[j] == ResetReleased(old(keyStates[..]))[j]
        invariant forall j :: i <= j < keyStates.Length ==> keyStates[j] == old(keyStates[j])
      {
        if keyStates[i] == Released {
          keyStates[i] := Inactive;
        }
      }
    }

    /** The `Display` walk: the keys it prints, in order, and nothing changes. */
    method ReportedKeys() returns (keys: seq<nat>)
      requires Valid()
      ensures keys == Reported(States())
    {
      keys := [];
      for i := 0 to keyStates.Length
        invariant keys == Reported(keyStates[..i])
      {
        assert keyStates[..i + 1][..i] == keyStates[..i];
        if keyStates[i] != NeverUsed && keyStates[i] != Inactive {
          keys := keys + [i];
        }
      }
      assert keyStates[..keyStates.Length] == keyStates[..];
    }
  }
}
