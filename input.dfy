/**
 * The browser input state of the web player: which of the 256 key codes are
 * held, the mouse position and its per-frame movement, and three mouse
 * buttons. Event handlers outside this model write the fields; the frame
 * loop clears the movement once per frame.
 */
module Input {
  const KeyCount: nat := 256

  /** A browser key code, one byte. */
  type KeyCode = k: int | 0 <= k < 256
  const ButtonCount: nat := 3

  class InputState {
    var keysDown: array<bool>
    var mouseX: real
    var mouseY: real
    var mouseDx: real
    var mouseDy: real
    var mouseButtons: array<bool>

    /** The two fixed-size arrays have their declared sizes. */
    ghost predicate Valid()
      reads this
    {
      keysDown.Length == KeyCount && mouseButtons.Length == ButtonCount
    }

    /** Every key and button up, the mouse at the origin and not moving. */
    constructor ()
      ensures Valid() && fresh(keysDown) && fresh(mouseButtons)
      ensures forall k :: 0 <= k < KeyCount ==> !keysDown[k]
      ensures forall b :: 0 <= b < ButtonCount ==> !mouseButtons[b]
      ensures mouseX == 0.0 && mouseY == 0.0 && mouseDx == 0.0 && mouseDy == 0.0
    {
      keysDown := new bool[KeyCount](_ => false);
      mouseButtons := new bool[ButtonCount](_ => false);
      mouseX, mouseY := 0.0, 0.0;
      mouseDx, mouseDy := 0.0, 0.0;
    }

    /** The per-frame reset: the movement deltas go back to zero, nothing else changes. */
    method Update()
      modifies this`mouseDx, this`mouseDy
      ensures mouseDx == 0.0 && mouseDy == 0.0
      ensures keysDown == old(keysDown) && mouseButtons == old(mouseButtons)
      ensures mouseX == old(mouseX) && mouseY == old(mouseY)
    {
      mouseDx := 0.0;
      mouseDy := 0.0;
    }

    /**
     * Whether key `key` is held. A key code is a byte, so the lookup is in
     * bounds for every code once the key array has its 256 entries.
     */
    function IsKeyDown(key: KeyCode): (down: bool)
      requires Valid()
      reads this, keysDown
      ensures down <==> keysDown[key]
    {
      keysDown[key]
    }
  }
}
