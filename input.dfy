/**
 * Keyboard state (gfx-lib/src/input.rs): three key maps that give every key
 * a pressed / held / released state, updated by each keyboard event and
 * cleared of presses and releases once per tick.
 */
module Input {
  import opened Types

  /** `VirtualKeyCode`: the window system's key names, as opaque numbers. */
  type KeyCode = nat

  /** `ElementState`: whether the event is a key going down or coming up. */
  datatype ElementState = Pressed | Released

  /** `KeyboardInput`: the key (the window system may not name one) and its new state. */
  datatype KeyboardInput = KeyboardInput(virtualKeycode: Option<KeyCode>, state: ElementState)

  /** A key map lookup where a key never seen reads as false (`unwrap_or(&false)`). */
  function Lookup(m: map<KeyCode, bool>, k: KeyCode): (b: bool)
    ensures b <==> k in m && m[k]
  {
    if k in m then m[k] else false
  }

  /** `InputState`: which keys are down, and which went down or up since the last clear. */
  class InputState {
    var currentKeys: map<KeyCode, bool>
    var pressedKeys: map<KeyCode, bool>
    var releasedKeys: map<KeyCode, bool>

    /**
     * What the three maps always satisfy: presses and releases are only
     * ever recorded as `true`, and a key pressed since the last clear and
     * not released since is held.
     */
    ghost predicate Valid()
      reads this
    {
      && (forall k :: k in pressedKeys ==> pressedKeys[k])
      && (forall k :: k in releasedKeys ==> releasedKeys[k])
      && (forall k :: k in pressedKeys && k !in releasedKeys ==> k in currentKeys && currentKeys[k])
    }

    /** `InputState::new`: no key seen. */
    constructor ()
      ensures Valid()
      ensures currentKeys == map[] && pressedKeys == map[] && releasedKeys == map[]
    {
      currentKeys, pressedKeys, releasedKeys := map[], map[], map[];
    }

    /** `is_key_pressed`: the key went down since the last clear. */
    function IsKeyPressed(k: KeyCode): (b: bool)
      reads this
      ensures b <==> k in pressedKeys && pressedKeys[k]
      ensures pressedKeys == map[] ==> !b
    {
      Lookup(pressedKeys, k)
    }

    /** `is_key_released`: the key came up since the last clear. */
    function IsKeyReleased(k: KeyCode): (b: bool)
      reads this
      ensures b <==> k in releasedKeys && releasedKeys[k]
      ensures releasedKeys == map[] ==> !b
    {
      Lookup(releasedKeys, k)
    }

    /** `is_key_held`: the key is down. */
    function IsKeyHeld(k: KeyCode): (b: bool)
      reads this
      ensures b <==> k in currentKeys && currentKeys[k]
      ensures currentKeys == map[] ==> !b
    {
      Lookup(currentKeys, k)
    }

    /** `clear_pressed_and_released`: forget presses and releases; keys held stay held. */
    method ClearPressedAndReleased()
      requires Valid()
      modifies this
      ensures Valid()
      ensures pressedKeys == map[] && releasedKeys == map[]
      ensures currentKeys == old(currentKeys)
    {
      pressedKeys := map[];
      releasedKeys := map[];
    }

    /**
     * `handle_keyboard_input`: an event without a key name panics. A key
     * going down is held from now on, and counts as pressed only if it was
     * not held already (a repeat is no new press); a key coming up is
     * released and no longer held, and its press, if any, stays recorded.
     */
    method HandleKeyboardInput(input: KeyboardInput) returns (r: Result<()>)
      requires Valid()
      modifies this
      ensures Valid()
      ensures input.virtualKeycode.None? ==> r == Panic(MissingKeycode)
      ensures input.virtualKeycode.None? ==>
        currentKeys == old(currentKeys) && pressedKeys == old(pressedKeys) && releasedKeys == old(releasedKeys)
      ensures input.virtualKeycode.Some? ==> r.Ok?
      ensures input.virtualKeycode.Some? && input.state == Pressed ==>
        var k := input.virtualKeycode.value;
        && currentKeys == old(currentKeys)[k := true]
        && pressedKeys == (if old(IsKeyHeld(k)) then old(pressedKeys) else old(pressedKeys)[k := true])
        && releasedKeys == old(releasedKeys)
      ensures input.virtualKeycode.Some? && input.state == Released ==>
        var k := input.virtualKeycode.value;
        && currentKeys == old(currentKeys)[k := false]
        && releasedKeys == old(releasedKeys)[k := true]
        && pressedKeys == old(pressedKeys)
    {
      if input.virtualKeycode.None? {
        return Panic(MissingKeycode);
      }
      var keycode := input.virtualKeycode.value;
      match input.state {
        case Pressed =>
          if !IsKeyHeld(keycode) {
            pressedKeys := pressedKeys[keycode := true];
          }
          currentKeys := currentKeys[keycode := true];
        case Released =>
          releasedKeys := releasedKeys[keycode := true];
          currentKeys := currentKeys[keycode := false];
      }
      r := Ok(());
    }
  }
}
