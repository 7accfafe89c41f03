/**
 * The Windows raw-input translator (Windows/RawInput.cpp) as values:
 * the notification payload, the left/right resolution of generic
 * modifier keys, the sizing of the reusable payload buffer, the effect of
 * one payload on the held-key set and the mouse accumulators, and the
 * releases replayed on focus loss. The class in RawInputTranslator runs
 * these steps in place and is specified by the functions here.
 */
module RawInput {
  import opened Collections

  // ---------------------------------------------------------------------
  // Win32 constants (WinUser.h values)
  // ---------------------------------------------------------------------

  const VK_RBUTTON: int := 0x02
  const VK_SHIFT: int := 0x10
  const VK_CONTROL: int := 0x11
  const VK_MENU: int := 0x12
  const VK_LSHIFT: int := 0xA0
  const VK_RSHIFT: int := 0xA1
  const VK_LCONTROL: int := 0xA2
  const VK_RCONTROL: int := 0xA3
  const VK_LMENU: int := 0xA4
  const VK_RMENU: int := 0xA5

  const WM_KEYDOWN: int := 0x0100
  const WM_KEYUP: int := 0x0101
  const WM_SYSKEYDOWN: int := 0x0104
  const WM_SYSKEYUP: int := 0x0105

  /** RAWKEYBOARD.Flags bit set when the scan code carried the E0 prefix. */
  const RI_KEY_E0: bv16 := 0x0002

  const RIM_TYPEMOUSE: int := 0
  const RIM_TYPEKEYBOARD: int := 1
  const RIM_TYPEHID: int := 2

  const RI_MOUSE_RIGHT_BUTTON_DOWN: bv16 := 0x0004
  const RI_MOUSE_RIGHT_BUTTON_UP: bv16 := 0x0008

  const RIDEV_NOHOTKEYS: int := 0x0200

  /** HID Usage Tables, section 4: the Generic Desktop page and two of its usages. */
  const HID_USAGE_PAGE_GENERIC: int := 0x01
  const HID_USAGE_GENERIC_MOUSE: int := 0x02
  const HID_USAGE_GENERIC_KEYBOARD: int := 0x06

  // ---------------------------------------------------------------------
  // Payloads and events
  // ---------------------------------------------------------------------

  /** The keyboard view of a RAWINPUT payload. */
  datatype RawKeyboard = RawKeyboard(makeCode: int, flags: bv16, vKey: int, message: int)

  /** The mouse view of a RAWINPUT payload: button transition bits and relative motion. */
  datatype RawMouse = RawMouse(buttonFlags: bv16, lastX: int, lastY: int)

  /**
   * A RAWINPUT record: the header's device type and the data union, of
   * which only the view named by `dwType` is read.
   */
  datatype RawPayload = RawPayload(dwType: int, keyboard: RawKeyboard, mouse: RawMouse)

  /** What GetRawInputData reports for one notification handle: the size it needs and the record. */
  datatype Notification = Notification(requiredSize: nat, payload: RawPayload)

  datatype DeviceId = KeyboardDevice | MouseDevice
  datatype KeyDirection = KeyDown | KeyUp

  /** The KeyInput handed to NativeKey. */
  datatype KeyEvent = KeyEvent(device: DeviceId, keyCode: int, direction: KeyDirection)

  /** One RAWINPUTDEVICE record passed to RegisterRawInputDevices. */
  datatype RawInputDevice = RawInputDevice(usagePage: int, usage: int, flags: int)

  /** The two registration records built by Init. */
  function RegisteredDevices(ignoreWindowsKey: bool): (r: seq<RawInputDevice>)
    ensures |r| == 2
    ensures r[0].usagePage == HID_USAGE_PAGE_GENERIC && r[0].usage == HID_USAGE_GENERIC_KEYBOARD
    ensures r[1].usagePage == HID_USAGE_PAGE_GENERIC && r[1].usage == HID_USAGE_GENERIC_MOUSE
    ensures r[0].flags == RIDEV_NOHOTKEYS <==> ignoreWindowsKey
    ensures r[0].flags != RIDEV_NOHOTKEYS ==> r[0].flags == 0
    ensures r[1].flags == 0
  {
    [ RawInputDevice(HID_USAGE_PAGE_GENERIC, HID_USAGE_GENERIC_KEYBOARD,
                     if ignoreWindowsKey then RIDEV_NOHOTKEYS else 0),
      RawInputDevice(HID_USAGE_PAGE_GENERIC, HID_USAGE_GENERIC_MOUSE, 0) ]
  }

  // ---------------------------------------------------------------------
  // Left/right resolution of generic modifier keys
  // ---------------------------------------------------------------------

  predicate HasE0(flags: bv16) {
    flags & RI_KEY_E0 != 0
  }

  /** The generic virtual key a sided modifier belongs to; any other key is its own generic key. */
  function GenericOf(vk: int): int {
    if vk == VK_LSHIFT || vk == VK_RSHIFT then VK_SHIFT
    else if vk == VK_LCONTROL || vk == VK_RCONTROL then VK_CONTROL
    else if vk == VK_LMENU || vk == VK_RMENU then VK_MENU
    else vk
  }

  predicate IsRightVariant(vk: int) {
    vk == VK_RSHIFT || vk == VK_RCONTROL || vk == VK_RMENU
  }

  /**
   * GetTrueVKey: Shift is resolved through the scan-code mapping
   * (MapVirtualKey with MAPVK_VSC_TO_VK_EX, passed in as `scanCodeToVk`),
   * Ctrl and Alt by the E0 flag, and every other key is left alone.
   */
  function GetTrueVKey(kb: RawKeyboard, scanCodeToVk: int -> int): (r: int)
    ensures kb.vKey == VK_CONTROL || kb.vKey == VK_MENU ==>
              GenericOf(r) == kb.vKey && r != kb.vKey && (IsRightVariant(r) <==> HasE0(kb.flags))
    ensures kb.vKey == VK_SHIFT ==> r == scanCodeToVk(kb.makeCode)
    ensures kb.vKey != VK_SHIFT && kb.vKey != VK_CONTROL && kb.vKey != VK_MENU ==> r == kb.vKey
  {
    if kb.vKey == VK_SHIFT then scanCodeToVk(kb.makeCode)
    else if kb.vKey == VK_CONTROL then (if HasE0(kb.flags) then VK_RCONTROL else VK_LCONTROL)
    else if kb.vKey == VK_MENU then (if HasE0(kb.flags) then VK_RMENU else VK_LMENU)
    else kb.vKey
  }

  /** For Shift the E0 flag is never consulted: only the make code decides. */
  lemma ShiftIgnoresFlags(kb: RawKeyboard, flags: bv16, scanCodeToVk: int -> int)
    requires kb.vKey == VK_SHIFT
    ensures GetTrueVKey(kb.(flags := flags), scanCodeToVk) == GetTrueVKey(kb, scanCodeToVk)
  {
  }

  // ---------------------------------------------------------------------
  // The reusable payload buffer
  // ---------------------------------------------------------------------

  /**
   * The pair rawInputBuffer / rawInputBufferSize, plus the size of the
   * block actually allocated (the last argument given to malloc or realloc).
   */
  datatype RawBuffer = RawBuffer(present: bool, capacity: nat, trackedSize: nat) {
    predicate Valid() {
      if present then trackedSize <= capacity else capacity == 0 && trackedSize == 0
    }
  }

  const NoBuffer := RawBuffer(false, 0, 0)

  /**
   * The sizing step of Process: allocate on first use (recording the size),
   * and reallocate to the request whenever it exceeds the recorded size.
   * The recorded size is never updated after a reallocation.
   */
  function SizeBuffer(b: RawBuffer, dwSize: nat): (r: RawBuffer)
    requires b.Valid()
    ensures r.Valid() && r.present && dwSize <= r.capacity
    ensures !b.present ==> r == RawBuffer(true, dwSize, dwSize)
    ensures r.trackedSize == (if b.present then b.trackedSize else dwSize)
    ensures b.present && dwSize <= b.trackedSize ==> r == b
    ensures b.present && dwSize > b.trackedSize ==> r.capacity == dwSize
  {
    var first := if b.present then b else RawBuffer(true, dwSize, dwSize);
    if dwSize > first.trackedSize then first.(capacity := dwSize) else first
  }

  /** The buffer after a run of requests, in order. */
  function SizeAll(b: RawBuffer, sizes: seq<nat>): (r: RawBuffer)
    requires b.Valid()
    ensures r.Valid()
    ensures sizes != [] ==> r.present && sizes[|sizes| - 1] <= r.capacity
    decreases |sizes|
  {
    if sizes == [] then b else SizeAll(SizeBuffer(b, sizes[0]), sizes[1..])
  }

  /** Starting without a buffer, the recorded size is the first request forever after. */
  lemma {:induction false} TrackedSizeIsFirstRequest(b: RawBuffer, sizes: seq<nat>)
    requires b.Valid() && sizes != []
    ensures SizeAll(b, sizes).trackedSize == (if b.present then b.trackedSize else sizes[0])
    decreases |sizes|
  {
    var b1 := SizeBuffer(b, sizes[0]);
    if |sizes| > 1 {
      TrackedSizeIsFirstRequest(b1, sizes[1..]);
    }
  }

  /**
   * The allocation is not monotonic: requests of 40, 60 and then 50 bytes
   * leave a 50-byte block after a 60-byte one.
   */
  lemma BufferCanShrink()
    ensures SizeAll(NoBuffer, [40, 60]).capacity == 60
    ensures SizeAll(NoBuffer, [40, 60, 50]).capacity == 50
  {
    assert SizeAll(NoBuffer, [40, 60, 50]) == SizeAll(SizeBuffer(NoBuffer, 40), [60, 50]);
    assert [60, 50][1..] == [50];
    assert [40, 60][1..] == [60];
  }

  // ---------------------------------------------------------------------
  // The held-key set as implied by emitted events
  // ---------------------------------------------------------------------

  /**
   * Reference meaning of a stream of events for the held-key set: a
   * keyboard DOWN adds its code, a keyboard UP removes it, mouse events
   * leave it alone.
   */
  function HeldAfter(held: set<int>, events: seq<KeyEvent>): set<int>
    decreases |events|
  {
    if events == [] then held
    else
      var e := events[0];
      var next :=
        if e.device != KeyboardDevice then held
        else if e.direction == KeyDown then held + {e.keyCode}
        else held - {e.keyCode};
      HeldAfter(next, events[1..])
  }

  lemma {:induction false} HeldAfterAppend(held: set<int>, a: seq<KeyEvent>, b: seq<KeyEvent>)
    ensures HeldAfter(held, a + b) == HeldAfter(HeldAfter(held, a), b)
    decreases |a|
  {
    if a == [] {
      assert a + b == b;
    } else {
      assert (a + b)[0] == a[0];
      assert (a + b)[1..] == a[1..] + b;
      var e := a[0];
      var next :=
        if e.device != KeyboardDevice then held
        else if e.direction == KeyDown then held + {e.keyCode}
        else held - {e.keyCode};
      HeldAfterAppend(next, a[1..], b);
    }
  }

  // ---------------------------------------------------------------------
  // One payload
  // ---------------------------------------------------------------------

  /** The globals Process updates besides the buffer: keyboardKeysDown and mouseDeltaX/Y. */
  datatype InputState = InputState(keysDown: set<int>, mouseDeltaX: int, mouseDeltaY: int)

  /** The new state and the events handed to NativeKey, in order. */
  datatype Step = Step(state: InputState, emitted: seq<KeyEvent>)

  predicate IsKeyDownMessage(message: int) {
    message == WM_KEYDOWN || message == WM_SYSKEYDOWN
  }

  /**
   * The dispatch part of Process for one fetched payload. `table` is
   * windowsTransTable (0 = unmapped), `scanCodeToVk` is MapVirtualKey.
   */
  function Translate(s: InputState, p: RawPayload, table: int -> int, scanCodeToVk: int -> int): (r: Step)
    ensures |r.emitted| <= 1
    ensures r.state.keysDown == HeldAfter(s.keysDown, r.emitted)
    ensures forall e :: e in r.emitted && e.device == KeyboardDevice ==> e.keyCode != 0
    ensures p.dwType != RIM_TYPEMOUSE ==>
              r.state.mouseDeltaX == s.mouseDeltaX && r.state.mouseDeltaY == s.mouseDeltaY
    ensures p.dwType == RIM_TYPEMOUSE ==>
              r.state.keysDown == s.keysDown &&
              r.state.mouseDeltaX == s.mouseDeltaX + p.mouse.lastX &&
              r.state.mouseDeltaY == s.mouseDeltaY + p.mouse.lastY &&
              forall e :: e in r.emitted ==> e.device == MouseDevice && e.keyCode == table(VK_RBUTTON)
    ensures p.dwType != RIM_TYPEMOUSE && p.dwType != RIM_TYPEKEYBOARD ==> r == Step(s, [])
  {
    if p.dwType == RIM_TYPEKEYBOARD then
      var kb := p.keyboard;
      if IsKeyDownMessage(kb.message) then
        var code := table(GetTrueVKey(kb, scanCodeToVk));
        if code != 0 then Step(s.(keysDown := s.keysDown + {code}), [KeyEvent(KeyboardDevice, code, KeyDown)])
        else Step(s, [])
      else if kb.message == WM_KEYUP then
        var code := table(GetTrueVKey(kb, scanCodeToVk));
        if code != 0 then Step(s.(keysDown := s.keysDown - {code}), [KeyEvent(KeyboardDevice, code, KeyUp)])
        else Step(s, [])
      else
        Step(s, [])
    else if p.dwType == RIM_TYPEMOUSE then
      var m := p.mouse;
      var moved := s.(mouseDeltaX := s.mouseDeltaX + m.lastX, mouseDeltaY := s.mouseDeltaY + m.lastY);
      var code := table(VK_RBUTTON);
      if m.buttonFlags & RI_MOUSE_RIGHT_BUTTON_DOWN != 0 then
        Step(moved, [KeyEvent(MouseDevice, code, KeyDown)])
      else if m.buttonFlags & RI_MOUSE_RIGHT_BUTTON_UP != 0 then
        Step(moved, [KeyEvent(MouseDevice, code, KeyUp)])
      else
        Step(moved, [])
    else
      Step(s, [])
  }

  /** A key-down or system-key-down with a mapped code: one DOWN event, code now held. */
  lemma KeyDownStep(s: InputState, p: RawPayload, table: int -> int, scanCodeToVk: int -> int)
    requires p.dwType == RIM_TYPEKEYBOARD && IsKeyDownMessage(p.keyboard.message)
    ensures var code := table(GetTrueVKey(p.keyboard, scanCodeToVk));
            var r := Translate(s, p, table, scanCodeToVk);
            if code != 0 then
              r.emitted == [KeyEvent(KeyboardDevice, code, KeyDown)] && r.state.keysDown == s.keysDown + {code}
              && (code in s.keysDown ==> r.state == s)
            else r == Step(s, [])
  {
  }

  /** A key-up with a mapped code: one UP event, code no longer held; an unheld code changes nothing else. */
  lemma KeyUpStep(s: InputState, p: RawPayload, table: int -> int, scanCodeToVk: int -> int)
    requires p.dwType == RIM_TYPEKEYBOARD && p.keyboard.message == WM_KEYUP
    ensures var code := table(GetTrueVKey(p.keyboard, scanCodeToVk));
            var r := Translate(s, p, table, scanCodeToVk);
            if code != 0 then
              r.emitted == [KeyEvent(KeyboardDevice, code, KeyUp)] && r.state.keysDown == s.keysDown - {code}
              && (code !in s.keysDown ==> r.state == s)
            else r == Step(s, [])
  {
  }

  /** Any other keyboard message (WM_SYSKEYUP among them) is ignored. */
  lemma OtherKeyboardMessageIgnored(s: InputState, p: RawPayload, table: int -> int, scanCodeToVk: int -> int)
    requires p.dwType == RIM_TYPEKEYBOARD
    requires !IsKeyDownMessage(p.keyboard.message) && p.keyboard.message != WM_KEYUP
    ensures Translate(s, p, table, scanCodeToVk) == Step(s, [])
  {
  }

  /** A mouse payload: motion always accumulates; one right-button event at most, DOWN taking precedence. */
  lemma MouseStep(s: InputState, p: RawPayload, table: int -> int, scanCodeToVk: int -> int)
    requires p.dwType == RIM_TYPEMOUSE
    ensures var r := Translate(s, p, table, scanCodeToVk);
            var f := p.mouse.buttonFlags;
            r.state == InputState(s.keysDown, s.mouseDeltaX + p.mouse.lastX, s.mouseDeltaY + p.mouse.lastY)
            && r.emitted == (if f & RI_MOUSE_RIGHT_BUTTON_DOWN != 0 then [KeyEvent(MouseDevice, table(VK_RBUTTON), KeyDown)]
                             else if f & RI_MOUSE_RIGHT_BUTTON_UP != 0 then [KeyEvent(MouseDevice, table(VK_RBUTTON), KeyUp)]
                             else [])
  {
  }

  // ---------------------------------------------------------------------
  // Runs of payloads
  // ---------------------------------------------------------------------

  function SumX(ps: seq<RawPayload>): int
    decreases |ps|
  {
    if ps == [] then 0 else (if ps[0].dwType == RIM_TYPEMOUSE then ps[0].mouse.lastX else 0) + SumX(ps[1..])
  }

  function SumY(ps: seq<RawPayload>): int
    decreases |ps|
  {
    if ps == [] then 0 else (if ps[0].dwType == RIM_TYPEMOUSE then ps[0].mouse.lastY else 0) + SumY(ps[1..])
  }

  /**
   * Process applied to payloads one after another. Without a focus loss in
   * between, the held set is exactly what the emitted events imply, and the
   * accumulators grow by the total relative motion of the mouse payloads.
   */
  function Run(s: InputState, ps: seq<RawPayload>, table: int -> int, scanCodeToVk: int -> int): (r: Step)
    ensures r.state.keysDown == HeldAfter(s.keysDown, r.emitted)
    ensures r.state.mouseDeltaX == s.mouseDeltaX + SumX(ps)
    ensures r.state.mouseDeltaY == s.mouseDeltaY + SumY(ps)
    ensures |r.emitted| <= |ps|
    decreases |ps|
  {
    if ps == [] then Step(s, [])
    else
      var first := Translate(s, ps[0], table, scanCodeToVk);
      var rest := Run(first.state, ps[1..], table, scanCodeToVk);
      HeldAfterAppend(s.keysDown, first.emitted, rest.emitted);
      Step(rest.state, first.emitted + rest.emitted)
  }

  function KeyPayload(message: int, vKey: int, makeCode: int): RawPayload {
    RawPayload(RIM_TYPEKEYBOARD, RawKeyboard(makeCode, 0, vKey, message), RawMouse(0, 0, 0))
  }

  /**
   * Left Shift down, right Shift down, left Shift up: only the left Shift's
   * release is emitted and the right Shift stays held. Shift is resolved
   * through the make codes 0x2A (left) and 0x36 (right).
   */
  lemma ShiftScenario(table: int -> int, scanCodeToVk: int -> int)
    requires scanCodeToVk(0x2A) == VK_LSHIFT && scanCodeToVk(0x36) == VK_RSHIFT
    requires table(VK_LSHIFT) != 0 && table(VK_RSHIFT) != 0 && table(VK_LSHIFT) != table(VK_RSHIFT)
    ensures var ps := [KeyPayload(WM_KEYDOWN, VK_SHIFT, 0x2A), KeyPayload(WM_KEYDOWN, VK_SHIFT, 0x36),
                       KeyPayload(WM_KEYUP, VK_SHIFT, 0x2A)];
            var r := Run(InputState({}, 0, 0), ps, table, scanCodeToVk);
            r.state.keysDown == {table(VK_RSHIFT)}
            && r.emitted == [KeyEvent(KeyboardDevice, table(VK_LSHIFT), KeyDown),
                             KeyEvent(KeyboardDevice, table(VK_RSHIFT), KeyDown),
                             KeyEvent(KeyboardDevice, table(VK_LSHIFT), KeyUp)]
  {
    var p0, p1, p2 := KeyPayload(WM_KEYDOWN, VK_SHIFT, 0x2A), KeyPayload(WM_KEYDOWN, VK_SHIFT, 0x36),
                      KeyPayload(WM_KEYUP, VK_SHIFT, 0x2A);
    var l, r := table(VK_LSHIFT), table(VK_RSHIFT);
    var s0 := InputState({}, 0, 0);
    var t0 := Translate(s0, p0, table, scanCodeToVk);
    assert t0 == Step(InputState({l}, 0, 0), [KeyEvent(KeyboardDevice, l, KeyDown)]);
    var t1 := Translate(t0.state, p1, table, scanCodeToVk);
    assert t1 == Step(InputState({l, r}, 0, 0), [KeyEvent(KeyboardDevice, r, KeyDown)]);
    var t2 := Translate(t1.state, p2, table, scanCodeToVk);
    assert {l, r} - {l} == {r};
    assert t2 == Step(InputState({r}, 0, 0), [KeyEvent(KeyboardDevice, l, KeyUp)]);
    var ps := [p0, p1, p2];
    assert ps[1..] == [p1, p2] && ps[1..][1..] == [p2] && ps[1..][1..][1..] == [];
    assert Run(t1.state, [p2], table, scanCodeToVk) == Step(t2.state, t2.emitted + []);
  }

  // ---------------------------------------------------------------------
  // Focus loss
  // ---------------------------------------------------------------------

  lemma MinExists(s: set<int>)
    requires s != {}
    ensures exists m :: m in s && forall x :: x in s ==> m <= x
    decreases s
  {
    var y := Pick(s);
    var rest := s - {y};
    assert forall x :: x in s ==> x == y || x in rest;
    if rest == {} {
      assert forall x :: x in s ==> y <= x;
    } else {
      MinExists(rest);
      var m :| m in rest && forall x :: x in rest ==> m <= x;
      var least := if y < m then y else m;
      forall x | x in s ensures least <= x {
        if x != y { assert x in rest; }
      }
      assert least in s;
    }
  }

  ghost function SetMin(s: set<int>): (m: int)
    requires s != {}
    ensures m in s && forall x :: x in s ==> m <= x
  {
    MinExists(s);
    var m :| m in s && forall x :: x in s ==> m <= x;
    m
  }

  /**
   * The releases LoseFocus hands to NativeKey: one keyboard UP per held
   * code, in ascending code order (the iteration order of std::set<int>).
   */
  ghost function Releases(held: set<int>): (r: seq<KeyEvent>)
    ensures |r| == |held|
    ensures forall i :: 0 <= i < |r| ==>
              r[i].device == KeyboardDevice && r[i].direction == KeyUp && r[i].keyCode in held
    ensures forall i, j :: 0 <= i < j < |r| ==> r[i].keyCode < r[j].keyCode
    decreases held
  {
    if held == {} then []
    else
      var m := SetMin(held);
      [KeyEvent(KeyboardDevice, m, KeyUp)] + Releases(held - {m})
  }

  /** Every held code is released. */
  lemma {:induction false} ReleasesCoverHeld(held: set<int>, c: int)
    requires c in held
    ensures exists i :: 0 <= i < |Releases(held)| && Releases(held)[i].keyCode == c
    decreases held
  {
    var m := SetMin(held);
    var r := Releases(held);
    assert r == [KeyEvent(KeyboardDevice, m, KeyUp)] + Releases(held - {m});
    if c == m {
      assert r[0].keyCode == c;
    } else {
      ReleasesCoverHeld(held - {m}, c);
      var i :| 0 <= i < |Releases(held - {m})| && Releases(held - {m})[i].keyCode == c;
      assert r[i + 1].keyCode == c;
    }
  }

  /** Replaying the releases against the held set empties it of exactly those codes. */
  lemma {:induction false} ReleasesClearHeld(before: set<int>, held: set<int>)
    ensures HeldAfter(before, Releases(held)) == before - held
    decreases held
  {
    if held != {} {
      var m := SetMin(held);
      var rest := Releases(held - {m});
      assert Releases(held) == [KeyEvent(KeyboardDevice, m, KeyUp)] + rest;
      assert Releases(held)[1..] == rest;
      ReleasesClearHeld(before - {m}, held - {m});
      assert before - {m} - (held - {m}) == before - held;
    }
  }

  /**
   * LoseFocus leaves the set as it was, so once a key is held the set no
   * longer matches what the emitted events imply: every released code is
   * still in the set.
   */
  lemma {:induction false} FocusLossLeavesStaleHeld(held: set<int>)
    requires held != {}
    ensures HeldAfter(held, Releases(held)) == {}
    ensures held != HeldAfter(held, Releases(held))
  {
    ReleasesClearHeld(held, held);
  }
}
