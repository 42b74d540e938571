/** Input events: button masks, the packed structs that carry them, and their injection on the
    streamer's side (src/MouseConfig.cpp, include/Message.hpp, src/streamer/X11IOController.cpp). */
module Input {
  import opened Messages

  // ---------------------------------------------------------------- masks

  const MOVE := 0
  const SCROLL_UP_MASK := 8
  const SCROLL_DOWN_MASK := 16
  const IS_CLICKED_MASK := 32

  /** `mask & bit`, for `bit` a power of two; also right for negative masks in two's complement. */
  predicate Has(mask: int, bit: int)
    requires bit > 0
  {
    (mask / bit) % 2 == 1
  }

  function ExtractButtonID(mask: int): int {
    if Has(mask, 1) then 1
    else if Has(mask, 2) then 2
    else if Has(mask, 4) then 3
    else if Has(mask, SCROLL_UP_MASK) then 4
    else if Has(mask, SCROLL_DOWN_MASK) then 5
    else if Has(mask, 64) then 9
    else if Has(mask, 128) then 8
    else 0
  }

  function Pow2(k: nat): int {
    if k == 0 then 1 else 2 * Pow2(k - 1)
  }

  // the shift is undefined for 0 and beyond the width of an int
  function ConvertToMask(sdlButton: nat): int
    requires 1 <= sdlButton <= 31
  {
    if sdlButton == 4 then 128 else if sdlButton == 5 then 64 else Pow2(sdlButton - 1)
  }

  function WithClicked(mask: int): int {
    if Has(mask, IS_CLICKED_MASK) then mask else mask + IS_CLICKED_MASK
  }

  predicate IsScrollMoved(mask: int) {
    Has(mask, SCROLL_UP_MASK) || Has(mask, SCROLL_DOWN_MASK)
  }

  // ---------------------------------------------------------------- packed structs

  type int32 = n: int | -0x8000_0000 <= n < 0x8000_0000
  type uint32 = n: int | 0 <= n < 0x1_0000_0000

  datatype MouseEventData = MouseEventData(buttonMask: int32, x: int32, y: int32)
  datatype KeyboardEventData = KeyboardEventData(down: bool, key: uint32)

  function Int32Bytes(n: int32): (s: seq<byte>)
    ensures |s| == 4
  {
    ToBytes(if n < 0 then n + 0x1_0000_0000 else n, 4)
  }

  function Int32OfBytes(s: seq<byte>): int32
    requires |s| == 4
  {
    IntegerOfBytes(s);
    assert Pow256(4) == 0x1_0000_0000;
    var u := FromBytes(s);
    if u < 0x8000_0000 then u else u - 0x1_0000_0000
  }

  lemma Int32RoundTrip(n: int32)
    ensures Int32OfBytes(Int32Bytes(n)) == n
  {
    assert Pow256(4) == 0x1_0000_0000;
    BytesOfInteger(if n < 0 then n + 0x1_0000_0000 else n, 4);
  }

  function MouseBytes(d: MouseEventData): (s: seq<byte>)
    ensures |s| == 12
  {
    Int32Bytes(d.buttonMask) + Int32Bytes(d.x) + Int32Bytes(d.y)
  }

  function KeyboardBytes(d: KeyboardEventData): (s: seq<byte>)
    ensures |s| == 5
  {
    [if d.down then 1 else 0] + ToBytes(d.key, 4)
  }

  datatype Input = Mouse(mouse: MouseEventData) | Keyboard(keyboard: KeyboardEventData) | Ignored

  /** `convertTo` and the dispatch on the type: a size other than the struct's throws (None). */
  function DecodeInput(m: Message): Option<Input> {
    match m.kind
    case MOUSE_INPUT =>
      if |m.content| != 12 then None
      else Some(Mouse(MouseEventData(Int32OfBytes(m.content[..4]), Int32OfBytes(m.content[4..8]),
                                      Int32OfBytes(m.content[8..]))))
    case KEYBOARD_INPUT =>
      if |m.content| != 5 then None
      else
        IntegerOfBytes(m.content[1..]);
        assert Pow256(4) == 0x1_0000_0000;
        Some(Keyboard(KeyboardEventData(m.content[0] != 0, FromBytes(m.content[1..]))))
    case _ => Some(Ignored)
  }

  function EncodeInput(i: Input): Message {
    match i
    case Mouse(d) => Message(MOUSE_INPUT, MouseBytes(d))
    case Keyboard(d) => Message(KEYBOARD_INPUT, KeyboardBytes(d))
    case Ignored => Message(JUST_A_MESSAGE, [])
  }

  /** What one side packs the other unpacks. */
  lemma InputRoundTrip(i: Input)
    ensures DecodeInput(EncodeInput(i)) == Some(i)
  {
    match i
    case Mouse(d) =>
      var s := MouseBytes(d);
      assert s[..4] == Int32Bytes(d.buttonMask) && s[4..8] == Int32Bytes(d.x) && s[8..] == Int32Bytes(d.y);
      Int32RoundTrip(d.buttonMask);
      Int32RoundTrip(d.x);
      Int32RoundTrip(d.y);
    case Keyboard(d) =>
      var s := KeyboardBytes(d);
      assert s[1..] == ToBytes(d.key, 4);
      assert Pow256(4) == 0x1_0000_0000;
      BytesOfInteger(d.key, 4);
    case Ignored =>
  }

  lemma Int32Exact(s: seq<byte>)
    requires |s| == 4
    ensures Int32Bytes(Int32OfBytes(s)) == s
  {
    IntegerOfBytes(s);
    assert Pow256(4) == 0x1_0000_0000;
  }

  /** A message is refused exactly for the wrong size; what is accepted as a mouse event is the event whose
      struct these bytes are; and other types are ignored. */
  lemma DecodeExact(m: Message)
    ensures DecodeInput(m) == None <==>
              (m.kind == MOUSE_INPUT && |m.content| != 12) || (m.kind == KEYBOARD_INPUT && |m.content| != 5)
    ensures m.kind == MOUSE_INPUT && |m.content| == 12 ==>
              DecodeInput(m).value.Mouse? && MouseBytes(DecodeInput(m).value.mouse) == m.content
    ensures m.kind == KEYBOARD_INPUT && |m.content| == 5 ==>
              && DecodeInput(m).value.Keyboard? && var d := DecodeInput(m).value.keyboard;
              && (d.down <==> m.content[0] != 0) && ToBytes(d.key, 4) == m.content[1..]
    ensures m.kind != MOUSE_INPUT && m.kind != KEYBOARD_INPUT ==> DecodeInput(m) == Some(Ignored)
  {
    if m.kind == MOUSE_INPUT && |m.content| == 12 {
      Int32Exact(m.content[..4]);
      Int32Exact(m.content[4..8]);
      Int32Exact(m.content[8..]);
      assert m.content == m.content[..4] + m.content[4..8] + m.content[8..];
    }
    if m.kind == KEYBOARD_INPUT && |m.content| == 5 {
      IntegerOfBytes(m.content[1..]);
    }
  }

  /** Where the fields of the structs are: little-endian, one after the other, without gaps. */
  lemma StructLayout(d: MouseEventData, k: KeyboardEventData, i: nat)
    requires i < 4 && d.buttonMask >= 0 && d.x >= 0 && d.y >= 0
    ensures EncodeInput(Mouse(d)).kind == MOUSE_INPUT && |EncodeInput(Mouse(d)).content| == 12
    ensures var s := EncodeInput(Mouse(d)).content;
            && s[i] == d.buttonMask / Pow256(i) % 256 && s[4 + i] == d.x / Pow256(i) % 256
               && s[8 + i] == d.y / Pow256(i) % 256
    ensures EncodeInput(Keyboard(k)).kind == KEYBOARD_INPUT && |EncodeInput(Keyboard(k)).content| == 5
    ensures var s := EncodeInput(Keyboard(k)).content;
            s[0] == (if k.down then 1 else 0) && s[1 + i] == k.key / Pow256(i) % 256
  {
    ByteAt(d.buttonMask, 4, i);
    ByteAt(d.x, 4, i);
    ByteAt(d.y, 4, i);
    ByteAt(k.key, 4, i);
  }

  /** A negative number is sent in two's complement. */
  lemma NegativeInt(n: int32, i: nat)
    requires i < 4 && n < 0
    ensures Int32Bytes(n)[i] == (n + 0x1_0000_0000) / Pow256(i) % 256
  {
    ByteAt(n + 0x1_0000_0000, 4, i);
  }

  /** The masks of the buttons, on their way out and back. */
  lemma MaskTable()
    ensures ConvertToMask(1) == 1 && ConvertToMask(2) == 2 && ConvertToMask(3) == 4
    ensures ConvertToMask(4) == 128 && ConvertToMask(5) == 64
    ensures ExtractButtonID(1) == 1 && ExtractButtonID(2) == 2 && ExtractButtonID(4) == 3
    ensures ExtractButtonID(8) == 4 && ExtractButtonID(16) == 5 && ExtractButtonID(64) == 9 && ExtractButtonID(128) == 8
    ensures ExtractButtonID(0) == 0 && ExtractButtonID(32) == 0
    ensures WithClicked(1) == 33 && WithClicked(33) == 33
  {
    assert Pow2(0) == 1 && Pow2(1) == 2 && Pow2(2) == 4;
  }

  // ---------------------------------------------------------------- injection

  datatype XEvent = Motion(x: int, y: int) | Button(id: int, down: bool) | Key(code: int, down: bool)

  /** What the X display knows: where its first screen begins, and the codes of the keys that its keyboard
      has. */
  datatype Display = Display(xOrg: int, yOrg: int, keycodes: map<uint32, int>)

  // XKeysymToKeycode
  function KeyCode(display: Display, key: uint32): int {
    if key in display.keycodes then display.keycodes[key] else 0
  }

  function KeyInjection(d: KeyboardEventData, display: Display): seq<XEvent> {
    if KeyCode(display, d.key) == 0 then [] else [Key(KeyCode(display, d.key), d.down)]
  }

  /** The fake events that `handleMouseEvent` asks for. */
  function MouseInjection(d: MouseEventData, display: Display): seq<XEvent> {
    if d.buttonMask == MOVE then [Motion(d.x + display.xOrg, d.y + display.yOrg)]
    else
      var button := ExtractButtonID(d.buttonMask);
      if IsScrollMoved(d.buttonMask) then [Button(button, true), Button(button, false)]
      else if button != 0 then [Button(button, Has(d.buttonMask, IS_CLICKED_MASK))]
      else []
  }

  function Injection(i: Input, display: Display): seq<XEvent> {
    match i
    case Mouse(d) => MouseInjection(d, display)
    case Keyboard(d) => KeyInjection(d, display)
    case Ignored => []
  }

  function Pressed(held: set<int>, e: XEvent): set<int> {
    if e.Button? then if e.down then held + {e.id} else held - {e.id} else held
  }

  /** The buttons that the X server considers held down. */
  function Held(events: seq<XEvent>): set<int> {
    if events == [] then {} else Pressed(Held(events[..|events| - 1]), events[|events| - 1])
  }

  lemma HeldAppend(events: seq<XEvent>, e: XEvent)
    ensures Held(events + [e]) == Pressed(Held(events), e)
  {
    assert (events + [e])[..|events|] == events;
  }

  class X11IOController {
    var injected: seq<XEvent>
    const display: Display

    constructor (display: Display)
      ensures injected == [] && this.display == display
    {
      injected := [];
      this.display := display;
    }

    method HandleKeyboardEvent(d: KeyboardEventData)
      modifies this
      ensures injected == old(injected) + Injection(Keyboard(d), display)
    {
      var code := KeyCode(display, d.key);
      if code == 0 { return; }
      injected := injected + [Key(code, d.down)];
    }

    method HandleMouseEvent(d: MouseEventData)
      modifies this
      ensures injected == old(injected) + Injection(Mouse(d), display)
    {
      if d.buttonMask == MOVE {
        injected := injected + [Motion(d.x + display.xOrg, d.y + display.yOrg)];
        return;
      }
      var button := ExtractButtonID(d.buttonMask);
      if IsScrollMoved(d.buttonMask) {
        injected := injected + [Button(button, true)];
        injected := injected + [Button(button, false)];
      } else if button != 0 {
        injected := injected + [Button(button, Has(d.buttonMask, IS_CLICKED_MASK))];
      }
    }
  }
}
