/** The viewer's side of the input: SDL events to messages, and pointer coordinates from the window to
    the streamed frame (src/ScreenViewerClient.cpp). */
module Viewer {
  import opened Messages
  import opened Input

  /** What happens to the viewer: SDL's events, and new sizes of the frame it shows. */
  datatype ViewerEvent =
    | MouseMotion(x: int, y: int, due: bool)  // due: the update interval has passed
    | MouseWheel(up: bool)                    // up: the sign test on the event, whatever field it reads
    | MouseButton(down: bool, button: nat, x: int, y: int)
    | KeyPress(down: bool, key: uint32)
    | WindowResized(width: int, height: int)
    | Quit
    | FrameResized(width: int, height: int)

  datatype View = View(windowWidth: int, windowHeight: int, frameWidth: int, frameHeight: int)

  predicate Sized(v: View) {
    v.windowWidth > 0 && v.windowHeight > 0 && v.frameWidth > 0 && v.frameHeight > 0
  }

  // division as C++ does it, towards zero
  function Quotient(a: int, b: int): int
    requires b > 0
  {
    if a >= 0 then a / b else -((-a) / b)
  }

  function FrameX(v: View, x: int): int
    requires Sized(v)
  {
    Quotient(x * v.frameWidth, v.windowWidth)
  }

  function FrameY(v: View, y: int): int
    requires Sized(v)
  {
    Quotient(y * v.frameHeight, v.windowHeight)
  }

  // the structs hold ints: a coordinate outside their range would be undefined
  function Narrow(n: int): int32 {
    if -0x8000_0000 <= n < 0x8000_0000 then n else 0
  }

  /** What the viewer sends for an event, if anything. */
  function InputOf(v: View, e: ViewerEvent): Option<Input>
    requires Sized(v) && (e.MouseButton? ==> 1 <= e.button <= 5)
  {
    match e
    case MouseMotion(x, y, due) =>
      if due then Some(Mouse(MouseEventData(MOVE, Narrow(FrameX(v, x)), Narrow(FrameY(v, y))))) else None
    case MouseWheel(up) => Some(Mouse(MouseEventData(if up then SCROLL_UP_MASK else SCROLL_DOWN_MASK, 0, 0)))
    case MouseButton(down, button, x, y) =>
      var mask := ConvertToMask(button);
      assert Pow2(0) == 1 && Pow2(1) == 2 && Pow2(2) == 4;
      Some(Mouse(MouseEventData(if down then WithClicked(mask) else mask, Narrow(FrameX(v, x)), Narrow(FrameY(v, y)))))
    case KeyPress(down, key) => Some(Keyboard(KeyboardEventData(down, key)))
    case _ => None
  }

  function ViewAfter(v: View, e: ViewerEvent): View {
    match e
    case WindowResized(width, height) => v.(windowWidth := width, windowHeight := height)
    case FrameResized(width, height) => v.(frameWidth := width, frameHeight := height)
    case _ => v
  }

  ghost predicate Ordinary(es: seq<ViewerEvent>) {
    forall e :: e in es ==>
      && (e.MouseButton? ==> 1 <= e.button <= 5)
      && (e.WindowResized? || e.FrameResized? ==> e.width > 0 && e.height > 0)
  }

  function InputsOf(v: View, es: seq<ViewerEvent>): seq<Input>
    requires Sized(v) && Ordinary(es)
    decreases |es|
  {
    if es == [] then []
    else (if InputOf(v, es[0]).Some? then [InputOf(v, es[0]).value] else []) + InputsOf(ViewAfter(v, es[0]), es[1..])
  }

  // ---------------------------------------------------------------- replay

  function MessagesOf(inputs: seq<Input>): seq<Message> {
    seq(|inputs|, i requires 0 <= i < |inputs| => EncodeInput(inputs[i]))
  }

  /** What the streamer injects for a list of messages, all of which it can decode. */
  function Replayed(ms: seq<Message>, display: Display): Option<seq<XEvent>> {
    if ms == [] then Some([])
    else
      match (Replayed(ms[..|ms| - 1], display), DecodeInput(ms[|ms| - 1]))
      case (Some(events), Some(i)) => Some(events + Injection(i, display))
      case _ => None
  }

  function InjectedFor(inputs: seq<Input>, display: Display): seq<XEvent> {
    if inputs == [] then [] else InjectedFor(inputs[..|inputs| - 1], display) + Injection(inputs[|inputs| - 1], display)
  }

  lemma {:induction false} ReplayedIs(inputs: seq<Input>, display: Display)
    ensures Replayed(MessagesOf(inputs), display) == Some(InjectedFor(inputs, display))
  {
    hide DecodeInput, EncodeInput, Injection;
    if inputs != [] {
      var front := inputs[..|inputs| - 1];
      ReplayedIs(front, display);
      assert MessagesOf(inputs)[..|inputs| - 1] == MessagesOf(front);
      InputRoundTrip(inputs[|inputs| - 1]);
    }
  }

  // SDL buttons 1 to 5 as X11 buttons
  function XButton(button: nat): int {
    if button == 4 then 8 else if button == 5 then 9 else button
  }

  /** The SDL buttons held down after some events. */
  function SdlHeld(es: seq<ViewerEvent>): set<nat> {
    if es == [] then {} else SdlPressed(SdlHeld(es[..|es| - 1]), es[|es| - 1])
  }

  function Image(buttons: set<nat>): set<int> {
    set b | b in buttons :: XButton(b)
  }

  ghost predicate Tracks(held: set<int>, buttons: set<nat>) {
    (forall b :: b in buttons ==> 1 <= b <= 5) && held == Image(buttons)
  }

  lemma ButtonInjection(v: View, e: ViewerEvent, display: Display)
    requires Sized(v) && e.MouseButton? && 1 <= e.button <= 5
    ensures Injection(InputOf(v, e).value, display) == [Button(XButton(e.button), e.down)]
  {
    assert Pow2(0) == 1 && Pow2(1) == 2 && Pow2(2) == 4;
  }

  lemma WheelTracked(events: seq<XEvent>, id: int)
    requires id !in Held(events)
    ensures Held(events + [Button(id, true), Button(id, false)]) == Held(events)
  {
    HeldAppend(events, Button(id, true));
    HeldAppend(events + [Button(id, true)], Button(id, false));
    assert events + [Button(id, true), Button(id, false)] == events + [Button(id, true)] + [Button(id, false)];
  }

  function SdlPressed(buttons: set<nat>, e: ViewerEvent): set<nat> {
    if e.MouseButton? then if e.down then buttons + {e.button} else buttons - {e.button} else buttons
  }

  /** One event: buttons follow, wheel and motion leave what is held as it was. */
  lemma EventTracked(v: View, e: ViewerEvent, events: seq<XEvent>, buttons: set<nat>, display: Display)
    requires Sized(v) && (e.MouseButton? ==> 1 <= e.button <= 5) && Tracks(Held(events), buttons)
    requires InputOf(v, e).Some?
    ensures Tracks(Held(events + Injection(InputOf(v, e).value, display)), SdlPressed(buttons, e))
  {
    hide Held, FrameX, FrameY, Narrow;
    var injection := Injection(InputOf(v, e).value, display);
    if e.MouseButton? {
      ButtonInjection(v, e, display);
      HeldAppend(events, Button(XButton(e.button), e.down));
      ImageUpdate(buttons, e.button);
    } else if e.MouseWheel? {
      var id := if e.up then 4 else 5;
      assert id !in Image(buttons);
      WheelTracked(events, id);
      assert injection == [Button(id, true), Button(id, false)];
    } else if injection == [] {
      assert events + injection == events;
    } else {
      HeldAppend(events, injection[0]);
      assert injection == [injection[0]];
    }
  }

  lemma ImageUpdate(buttons: set<nat>, button: nat)
    requires (forall b :: b in buttons ==> 1 <= b <= 5) && 1 <= button <= 5
    ensures Image(buttons + {button}) == Image(buttons) + {XButton(button)}
    ensures Image(buttons - {button}) == Image(buttons) - {XButton(button)}
  {
    assert Image(buttons - {button}) <= Image(buttons) - {XButton(button)};
    forall x | x in Image(buttons) - {XButton(button)} ensures x in Image(buttons - {button}) {
      var b :| b in buttons && XButton(b) == x;
      assert b in buttons - {button};
    }
    forall x | x in Image(buttons) + {XButton(button)} ensures x in Image(buttons + {button}) {
      if x == XButton(button) { assert button in buttons + {button}; }
      else { var b :| b in buttons && XButton(b) == x; assert b in buttons + {button}; }
    }
  }

  /** After every list of events, resizes of the window and of the frame among them, sent as messages and
      replayed, the X11 buttons held down are the image of the SDL buttons held down; and
      the streamer could decode every message. */
  lemma InputReplay(v: View, es: seq<ViewerEvent>, display: Display)
    requires Sized(v) && Ordinary(es)
    ensures var replayed := Replayed(MessagesOf(InputsOf(v, es)), display);
            replayed.Some? && Held(replayed.value) == Image(SdlHeld(es))
  {
    ReplayedIs(InputsOf(v, es), display);
    ReplayTracks(v, es, display);
  }

  function ViewAfterAll(v: View, es: seq<ViewerEvent>): View
    decreases |es|
  {
    if es == [] then v else ViewAfterAll(ViewAfter(v, es[0]), es[1..])
  }

  lemma {:induction false} InputsAppend(v: View, es: seq<ViewerEvent>, e: ViewerEvent)
    requires Sized(v) && Ordinary(es + [e])
    ensures Ordinary(es) && Sized(ViewAfterAll(v, es)) && (e.MouseButton? ==> 1 <= e.button <= 5)
    ensures InputsOf(v, es + [e]) ==
            var i := InputOf(ViewAfterAll(v, es), e);
            InputsOf(v, es) + (if i.Some? then [i.value] else [])
    decreases |es|
  {
    assert e in es + [e];
    if es == [] {
      assert [] + [e] == [e];
    } else {
      assert es[0] in es + [e];
      assert (es + [e])[1..] == es[1..] + [e];
      forall x | x in es[1..] + [e] ensures x in es + [e] {}
      InputsAppend(ViewAfter(v, es[0]), es[1..], e);
    }
  }

  lemma {:induction false} ReplayTracks(v: View, es: seq<ViewerEvent>, display: Display)
    requires Sized(v) && Ordinary(es)
    ensures Tracks(Held(InjectedFor(InputsOf(v, es), display)), SdlHeld(es))
    decreases |es|
  {
    if es != [] {
      var front, e := es[..|es| - 1], es[|es| - 1];
      assert es == front + [e];
      InputsAppend(v, front, e);
      ReplayTracks(v, front, display);
      var at := ViewAfterAll(v, front);
      if InputOf(at, e).Some? {
        var i := InputOf(at, e).value;
        EventTracked(at, e, InjectedFor(InputsOf(v, front), display), SdlHeld(front), display);
        assert (InputsOf(v, front) + [i])[..|InputsOf(v, front)|] == InputsOf(v, front);
      } else {
        assert InputsOf(v, es) == InputsOf(v, front);
      }
    }
  }

  // ---------------------------------------------------------------- coordinates

  lemma Scaled(x: int, frame: int, window: int)
    requires 0 <= x < window && frame > 0
    ensures 0 <= Quotient(x * frame, window) < frame
  {
    assert 0 <= x * frame;
    assert x * frame < window * frame;
    if x * frame / window >= frame {
      assert x * frame / window * window >= frame * window;
    }
  }

  lemma ScaledMonotone(x: int, x': int, frame: int, window: int)
    requires 0 <= x <= x' && frame > 0 && window > 0
    ensures Quotient(x * frame, window) <= Quotient(x' * frame, window)
  {
    assert 0 <= x * frame <= x' * frame;
    DivideMonotone(x * frame, x' * frame, window);
  }

  lemma DivideMonotone(a: int, b: int, d: int)
    requires 0 <= a <= b && d > 0
    ensures a / d <= b / d
  {
    QuotientAtMost(b, d, a / d);
  }

  lemma QuotientAtMost(b: int, d: int, q: int)
    requires d > 0 && d * q <= b
    ensures q <= b / d
  {
    assert b == d * (b / d) + b % d;
    if q > b / d { TimesMore(d, b / d, q); }
  }

  lemma {:induction false} TimesMore(d: int, p: int, q: int)
    requires d > 0 && p + 1 <= q
    ensures d * p + d <= d * q
    decreases q - p
  {
    assert d * (q - 1) == d * q - d;
    if p + 1 < q { TimesMore(d, p, q - 1); }
  }

  lemma ScaledIdentity(x: int, n: int)
    requires 0 <= x && n > 0
    ensures Quotient(x * n, n) == x
  {
    assert 0 <= x * n;
    assert x * n / n == x;
  }

  /** A position inside the window maps inside the frame, keeping order, and to itself when the sizes
      agree; when the frame has the size of the streamed screen the injected motion lands inside
      that screen. For any sizes, so after any resizes of the window and any new frame sizes. */
  lemma PointerMapping(v: View, x: int, y: int, x': int, y': int, display: Display)
    requires Sized(v) && 0 <= x < v.windowWidth && 0 <= y < v.windowHeight
    requires v.frameWidth < 0x8000_0000 && v.frameHeight < 0x8000_0000
    ensures 0 <= FrameX(v, x) < v.frameWidth && 0 <= FrameY(v, y) < v.frameHeight
    ensures 0 <= x' <= x ==> FrameX(v, x') <= FrameX(v, x)
    ensures 0 <= y' <= y ==> FrameY(v, y') <= FrameY(v, y)
    ensures v.frameWidth == v.windowWidth ==> FrameX(v, x) == x
    ensures v.frameHeight == v.windowHeight ==> FrameY(v, y) == y
    ensures var injection := Injection(InputOf(v, MouseMotion(x, y, true)).value, display);
            && injection == [Motion(display.xOrg + FrameX(v, x), display.yOrg + FrameY(v, y))]
            && display.xOrg <= injection[0].x < display.xOrg + v.frameWidth
            && display.yOrg <= injection[0].y < display.yOrg + v.frameHeight
  {
    Scaled(x, v.frameWidth, v.windowWidth);
    Scaled(y, v.frameHeight, v.windowHeight);
    if 0 <= x' <= x { ScaledMonotone(x', x, v.frameWidth, v.windowWidth); }
    if 0 <= y' <= y { ScaledMonotone(y', y, v.frameHeight, v.windowHeight); }
    ScaledIdentity(x, v.windowWidth);
    ScaledIdentity(y, v.windowHeight);
  }

  lemma QuotientBounds(a: int, b: int)
    requires a >= 0 && b > 0
    ensures Quotient(a, b) * b <= a < (Quotient(a, b) + 1) * b && Quotient(-a, b) == -Quotient(a, b)
  {
    assert a == b * (a / b) + a % b;
    if a > 0 { assert -a < 0; }
  }

  /** The mapped position is the exact one rounded towards zero, on both axes. */
  lemma PointerExact(v: View, x: int, y: int)
    requires Sized(v) && x >= 0 && y >= 0
    ensures FrameX(v, x) * v.windowWidth <= x * v.frameWidth < (FrameX(v, x) + 1) * v.windowWidth
    ensures FrameY(v, y) * v.windowHeight <= y * v.frameHeight < (FrameY(v, y) + 1) * v.windowHeight
    ensures FrameX(v, -x) == -FrameX(v, x) && FrameY(v, -y) == -FrameY(v, y)
  {
    assert 0 <= x * v.frameWidth && 0 <= y * v.frameHeight;
    assert (-x) * v.frameWidth == -(x * v.frameWidth) && (-y) * v.frameHeight == -(y * v.frameHeight);
    QuotientBounds(x * v.frameWidth, v.windowWidth);
    QuotientBounds(y * v.frameHeight, v.windowHeight);
  }

  /** A resize of the window, or a frame of another size, takes effect on that and on nothing else. */
  lemma ResizeTakesEffect(v: View, width: int, height: int)
    ensures ViewAfter(v, WindowResized(width, height)) == View(width, height, v.frameWidth, v.frameHeight)
    ensures ViewAfter(v, FrameResized(width, height)) == View(v.windowWidth, v.windowHeight, width, height)
  {
  }

  /** What each event other than a button comes to at the X server: the wheel is a press and a release of
      button 4 or 5, a key is the same key in the same direction if the keyboard has it, a motion that is not
      due is nothing. */
  lemma EventsInjected(v: View, up: bool, down: bool, key: uint32, x: int, y: int, display: Display)
    requires Sized(v)
    ensures InputOf(v, MouseWheel(up)).Some?
    ensures Injection(InputOf(v, MouseWheel(up)).value, display) ==
            if up then [Button(4, true), Button(4, false)] else [Button(5, true), Button(5, false)]
    ensures InputOf(v, KeyPress(down, key)).Some?
    ensures Injection(InputOf(v, KeyPress(down, key)).value, display) ==
            if key in display.keycodes && display.keycodes[key] != 0 then [Key(display.keycodes[key], down)] else []
    ensures InputOf(v, MouseMotion(x, y, false)) == None && InputOf(v, Quit) == None
    ensures InputOf(v, WindowResized(x, y)) == None && InputOf(v, FrameResized(x, y)) == None
  {
  }

  /** A motion or a button event carries the mapped position, also when the pointer is outside the window, as
      long as an int can hold it. */
  lemma PositionSent(v: View, down: bool, button: nat, x: int, y: int, display: Display)
    requires Sized(v) && 1 <= button <= 5
    requires -0x8000_0000 <= FrameX(v, x) < 0x8000_0000 && -0x8000_0000 <= FrameY(v, y) < 0x8000_0000
    ensures var i := InputOf(v, MouseButton(down, button, x, y));
            i.Some? && i.value.Mouse? && i.value.mouse.x == FrameX(v, x) && i.value.mouse.y == FrameY(v, y)
    ensures var i := InputOf(v, MouseMotion(x, y, true));
            && i.Some? && i.value == Mouse(MouseEventData(0, FrameX(v, x), FrameY(v, y)))
            && Injection(i.value, display) == [Motion(FrameX(v, x) + display.xOrg, FrameY(v, y) + display.yOrg)]
  {
  }
}
