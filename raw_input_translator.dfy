/**
 * The globals of Windows/RawInput.cpp and the two entry points that update
 * them in place, Process and LoseFocus. Each is specified by the value
 * model in module RawInput.
 */
module RawInputTranslator {
  import opened RawInput

  class Translator {
    /** windowsTransTable: virtual key to application key code, 0 when unmapped. */
    const transTable: int -> int
    /** MapVirtualKey(·, MAPVK_VSC_TO_VK_EX): scan code to sided virtual key. */
    const scanCodeToVk: int -> int

    var keyboardKeysDown: set<int>
    /** rawInputBuffer != nullptr */
    var bufferPresent: bool
    /** Size of the block rawInputBuffer points to. */
    var bufferCapacity: nat
    var rawInputBufferSize: nat
    var mouseDeltaX: int
    var mouseDeltaY: int
    /** Every KeyInput handed to NativeKey so far, oldest first. */
    var emitted: seq<KeyEvent>

    function Buffer(): RawBuffer
      reads this
    {
      RawBuffer(bufferPresent, bufferCapacity, rawInputBufferSize)
    }

    function State(): InputState
      reads this
    {
      InputState(keyboardKeysDown, mouseDeltaX, mouseDeltaY)
    }

    ghost predicate Valid()
      reads this
    {
      Buffer().Valid()
    }

    constructor (transTable: int -> int, scanCodeToVk: int -> int)
      ensures Valid()
      ensures this.transTable == transTable && this.scanCodeToVk == scanCodeToVk
      ensures Buffer() == NoBuffer && State() == InputState({}, 0, 0) && emitted == []
    {
      this.transTable := transTable;
      this.scanCodeToVk := scanCodeToVk;
      keyboardKeysDown := {};
      bufferPresent, bufferCapacity, rawInputBufferSize := false, 0, 0;
      mouseDeltaX, mouseDeltaY := 0, 0;
      emitted := [];
    }

    /** The event sink: appends one event to the log. */
    method NativeKey(e: KeyEvent)
      modifies this`emitted
      ensures emitted == old(emitted) + [e]
    {
      emitted := emitted + [e];
    }

    /**
     * One WM_INPUT notification: size the buffer for it, fetch the record,
     * then dispatch on its device type.
     */
    method Process(n: Notification)
      requires Valid()
      modifies this
      ensures Valid()
      ensures Buffer() == SizeBuffer(old(Buffer()), n.requiredSize)
      ensures bufferPresent && n.requiredSize <= bufferCapacity
      ensures var step := Translate(old(State()), n.payload, transTable, scanCodeToVk);
              State() == step.state && emitted == old(emitted) + step.emitted
    {
      var dwSize := n.requiredSize;
      if !bufferPresent {
        bufferPresent := true;
        bufferCapacity := dwSize;
        rawInputBufferSize := dwSize;
      }
      if dwSize > rawInputBufferSize {
        bufferCapacity := dwSize;
      }
      var raw := n.payload;
      if raw.dwType == RIM_TYPEKEYBOARD {
        var kb := raw.keyboard;
        if kb.message == WM_KEYDOWN || kb.message == WM_SYSKEYDOWN {
          var code := transTable(GetTrueVKey(kb, scanCodeToVk));
          if code != 0 {
            NativeKey(KeyEvent(KeyboardDevice, code, KeyDown));
            keyboardKeysDown := keyboardKeysDown + {code};
          }
        } else if kb.message == WM_KEYUP {
          var code := transTable(GetTrueVKey(kb, scanCodeToVk));
          if code != 0 {
            NativeKey(KeyEvent(KeyboardDevice, code, KeyUp));
            if code in keyboardKeysDown {
              keyboardKeysDown := keyboardKeysDown - {code};
            }
          }
        }
      } else if raw.dwType == RIM_TYPEMOUSE {
        mouseDeltaX := mouseDeltaX + raw.mouse.lastX;
        mouseDeltaY := mouseDeltaY + raw.mouse.lastY;
        var pressed := raw.mouse.buttonFlags & RI_MOUSE_RIGHT_BUTTON_DOWN;
        var released := raw.mouse.buttonFlags & RI_MOUSE_RIGHT_BUTTON_UP;
        if pressed != 0 {
          NativeKey(KeyEvent(MouseDevice, transTable(VK_RBUTTON), KeyDown));
        } else if released != 0 {
          NativeKey(KeyEvent(MouseDevice, transTable(VK_RBUTTON), KeyUp));
        }
      }
    }

    /**
     * Focus loss: one keyboard release per held code, walking the set in
     * ascending order. The set itself is left as it was.
     */
    method LoseFocus()
      modifies this`emitted
      ensures emitted == old(emitted) + Releases(keyboardKeysDown)
      ensures keyboardKeysDown == old(keyboardKeysDown)
    {
      var remaining := keyboardKeysDown;
      while remaining != {}
        invariant remaining <= keyboardKeysDown
        invariant old(emitted) + Releases(keyboardKeysDown) == emitted + Releases(remaining)
        decreases remaining
      {
        MinExists(remaining);
        var code :| code in remaining && forall x :: x in remaining ==> code <= x;
        assert code == SetMin(remaining);
        assert Releases(remaining) == [KeyEvent(KeyboardDevice, code, KeyUp)] + Releases(remaining - {code});
        NativeKey(KeyEvent(KeyboardDevice, code, KeyUp));
        remaining := remaining - {code};
      }
    }
  }
}
