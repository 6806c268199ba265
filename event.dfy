// Window and input events, their handled flag, and the dispatcher that runs a handler only for
// an event of the type it was registered for.
module Events {
  import opened Ints
  import Decimal
  import Errors
  import opened Wrappers

  datatype EventType =
    | NoEvent | WindowResize | WindowClose | MouseButtonDown | MouseButtonUp
    | MouseMove | MouseScroll | KeyDown | KeyUp | Tick | Draw

  /** `EventType::name`: the variant's own name. */
  function Name(t: EventType): string {
    match t
    case NoEvent => "None"
    case WindowResize => "WindowResize"
    case WindowClose => "WindowClose"
    case MouseButtonDown => "MouseButtonDown"
    case MouseButtonUp => "MouseButtonUp"
    case MouseMove => "MouseMove"
    case MouseScroll => "MouseScroll"
    case KeyDown => "KeyDown"
    case KeyUp => "KeyUp"
    case Tick => "Tick"
    case Draw => "Draw"
  }

  datatype MouseButton = Left | Right | Middle | OtherButton(n: u8)

  datatype KeyCode =
    | W | A | S | D | Space | Escape | Enter
    | F1 | F2 | F3 | F4 | F5 | F6 | F7 | F8 | F9 | F10 | F11 | F12
    | OtherKey(code: u32)

  /** What each kind of event carries besides its handled flag. */
  datatype EventData =
    | ResizeData(width: u32, height: u32)
    | CloseData
    | ButtonData(button: MouseButton, x: real, y: real, pressed: bool)
    | MoveData(x: real, y: real, deltaX: real, deltaY: real)
    | ScrollData(deltaX: real, deltaY: real)
    | KeyData(key: KeyCode, pressed: bool)
    | TickData(deltaTime: real, totalTime: real)
    | DrawData

  /** `Event::event_type`: button and key events report Down when pressed and Up otherwise. */
  function TypeOf(d: EventData): (t: EventType)
    ensures t != NoEvent
    ensures d.ButtonData? ==> (t == MouseButtonDown <==> d.pressed) && (t == MouseButtonUp <==> !d.pressed)
    ensures d.KeyData? ==> (t == KeyDown <==> d.pressed) && (t == KeyUp <==> !d.pressed)
  {
    match d
    case ResizeData(_, _) => WindowResize
    case CloseData => WindowClose
    case ButtonData(_, _, _, pressed) => if pressed then MouseButtonDown else MouseButtonUp
    case MoveData(_, _, _, _) => MouseMove
    case ScrollData(_, _) => MouseScroll
    case KeyData(_, pressed) => if pressed then KeyDown else KeyUp
    case TickData(_, _) => Tick
    case DrawData => Draw
  }

  /** The `{:?}` text of a key code. */
  function KeyName(k: KeyCode): string {
    match k
    case W => "W" case A => "A" case S => "S" case D => "D"
    case Space => "Space" case Escape => "Escape" case Enter => "Enter"
    case F1 => "F1" case F2 => "F2" case F3 => "F3" case F4 => "F4"
    case F5 => "F5" case F6 => "F6" case F7 => "F7" case F8 => "F8"
    case F9 => "F9" case F10 => "F10" case F11 => "F11" case F12 => "F12"
    case OtherKey(code) => "Other(" + Decimal.NatToString(code) + ")"
  }

  /** Events whose `detail` text has no floating-point numbers in it. */
  predicate HasTextDetail(d: EventData) {
    d.ResizeData? || d.CloseData? || d.KeyData? || d.DrawData?
  }

  /** `Event::detail` for the events whose text has no floating-point numbers in it. */
  function Detail(d: EventData): string
    requires HasTextDetail(d)
  {
    match d
    case ResizeData(w, h) => ResizePrefix + Decimal.NatToString(w) + "x" + Decimal.NatToString(h)
    case CloseData => "WindowClose"
    case KeyData(k, pressed) => "Key" + (if pressed then "Down" else "Up") + ": " + KeyName(k)
    case DrawData => "Draw"
  }

  const ResizePrefix := "WindowResize: "

  /** Reads a resize event's width and height back out of its detail text. */
  function ParseResizeDetail(s: string): Option<(u32, u32)> {
    if ResizePrefix <= s then
      var rest := s[|ResizePrefix|..];
      match Errors.FindChar(rest, 'x')
      case None => None
      case Some(i) =>
        match (Decimal.ParseU32(rest[..i]), Decimal.ParseU32(rest[i + 1..]))
        case (Some(w), Some(h)) => Some((w, h))
        case _ => None
    else None
  }

  /** An event: what it carries and whether a handler has dealt with it. */
  class Event {
    var data: EventData
    var handled: bool

    /** Every event constructor: not yet handled. */
    constructor (data: EventData)
      ensures this.data == data && !handled
    {
      this.data := data;
      handled := false;
    }

    function Type(): EventType
      reads this
    {
      TypeOf(data)
    }

    function IsHandled(): bool
      reads this
    {
      handled
    }

    method SetHandled(handled: bool)
      modifies this
      ensures this.handled == handled && data == old(data)
    {
      this.handled := handled;
    }
  }

  /**
   * `EventDispatcher::dispatch`: the handler runs only for an event of the given type; its
   * answer becomes the event's handled flag, even when that clears an earlier `true`. The
   * handler is represented by the answer it gives, and `called` tells whether it ran.
   */
  method Dispatch(event: Event, t: EventType, handlerResult: bool) returns (r: bool, ghost called: bool)
    modifies event
    ensures called <==> old(event.Type()) == t
    ensures r == (called && handlerResult)
    ensures event.handled == (if called then handlerResult else old(event.handled))
    ensures event.data == old(event.data)
  {
    if event.Type() == t {
      called := true;
      event.SetHandled(handlerResult);
      r := handlerResult;
    } else {
      called := false;
      r := false;
    }
  }

  /** The handled flag after one `dispatch` call. */
  function AfterDispatch(d: EventData, handled: bool, t: EventType, handlerResult: bool): bool {
    if TypeOf(d) == t then handlerResult else handled
  }

  /** The handled flag after a chain of `dispatch` calls, each a type and a handler's answer. */
  function AfterDispatches(d: EventData, handled: bool, calls: seq<(EventType, bool)>): bool
    decreases |calls|
  {
    if calls == [] then handled
    else AfterDispatch(d, AfterDispatches(d, handled, calls[..|calls| - 1]), calls[|calls| - 1].0, calls[|calls| - 1].1)
  }

  /** After a chain of dispatches none of whose handlers ran, the flag is what it was. */
  lemma {:induction false} UnmatchedHandlersKeepFlag(d: EventData, handled: bool, calls: seq<(EventType, bool)>)
    requires forall k :: 0 <= k < |calls| ==> calls[k].0 != TypeOf(d)
    ensures AfterDispatches(d, handled, calls) == handled
    decreases |calls|
  {
    if calls != [] {
      var init := calls[..|calls| - 1];
      assert forall k :: 0 <= k < |init| ==> init[k] == calls[k];
      UnmatchedHandlersKeepFlag(d, handled, init);
    }
  }

  /**
   * After a chain of dispatches, the event is handled exactly as the last handler that ran
   * said: `k` is the last call whose type matches the event's.
   */
  lemma {:induction false} LastMatchingHandlerDecides(d: EventData, handled: bool, calls: seq<(EventType, bool)>, k: nat)
    requires k < |calls| && calls[k].0 == TypeOf(d)
    requires forall j :: k < j < |calls| ==> calls[j].0 != TypeOf(d)
    ensures AfterDispatches(d, handled, calls) == calls[k].1
    decreases |calls|
  {
    var n := |calls| - 1;
    if k < n {
      var init := calls[..n];
      assert forall j :: 0 <= j < |init| ==> init[j] == calls[j];
      LastMatchingHandlerDecides(d, handled, init, k);
      assert calls[n].0 != TypeOf(d);
    }
  }

  /** A handled event becomes unhandled again when a matching handler answers false. */
  lemma HandlerCanClearFlag(d: EventData)
    ensures AfterDispatches(d, false, [(TypeOf(d), true), (TypeOf(d), false)]) == false
    ensures AfterDispatches(d, false, [(TypeOf(d), true)]) == true
  {
    var calls := [(TypeOf(d), true), (TypeOf(d), false)];
    assert calls[..1] == [(TypeOf(d), true)];
    assert calls[..1][..0] == [];
  }

  /** Different types have different names. */
  lemma NameIsInjective(a: EventType, b: EventType)
    ensures Name(a) == Name(b) <==> a == b
  {
  }

  /** A resize event's detail text gives back its width and height. */
  lemma ResizeDetailRoundTrip(w: u32, h: u32)
    ensures ParseResizeDetail(Detail(ResizeData(w, h))) == Some((w, h))
  {
    var ws := Decimal.NatToString(w);
    var hs := Decimal.NatToString(h);
    var rest := ws + "x" + hs;
    assert Detail(ResizeData(w, h)) == ResizePrefix + rest;
    Errors.Prefixed(ResizePrefix, rest);
    assert rest[|ws|] == 'x';
    assert forall k :: 0 <= k < |ws| ==> rest[k] == ws[k] && Decimal.IsDigit(rest[k]);
    assert 'x' !in rest[..|ws|];
    var found := Errors.FindChar(rest, 'x');
    assert found == Some(|ws|);
    assert rest[..|ws|] == ws && rest[|ws| + 1..] == hs;
    Decimal.ParseFormatRoundTrip(w);
    Decimal.ParseFormatRoundTrip(h);
  }

  /** A pressed and a released event of the same key or button report opposite types. */
  lemma PressAndReleaseAreOpposite(b: MouseButton, x: real, y: real, k: KeyCode)
    ensures TypeOf(ButtonData(b, x, y, true)) == MouseButtonDown && TypeOf(ButtonData(b, x, y, false)) == MouseButtonUp
    ensures TypeOf(KeyData(k, true)) == KeyDown && TypeOf(KeyData(k, false)) == KeyUp
  {
  }

  /** Different key codes print differently. */
  lemma KeyNameIsInjective(a: KeyCode, b: KeyCode)
    ensures KeyName(a) == KeyName(b) <==> a == b
  {
    if KeyName(a) == KeyName(b) {
      if a.OtherKey? && b.OtherKey? {
        var s := KeyName(a);
        var da := Decimal.NatToString(a.code);
        var db := Decimal.NatToString(b.code);
        assert s == "Other(" + da + ")" == "Other(" + db + ")";
        assert da == s[6..|s| - 1] == db;
        Decimal.DigitsOfNatToString(a.code);
        Decimal.DigitsOfNatToString(b.code);
      }
    }
  }

  /** A key event's detail is its direction's prefix followed by the key's name. */
  lemma KeyDetailParts(k: KeyCode, pressed: bool)
    ensures Detail(KeyData(k, pressed)) == DirectionPrefix(pressed) + KeyName(k)
  {
  }

  function DirectionPrefix(pressed: bool): string {
    if pressed then "KeyDown: " else "KeyUp: "
  }

  /** The two direction prefixes differ at their fourth character, so the prefix is recoverable. */
  lemma DirectionPrefixesSplit(pressed: bool, n: string, pressed2: bool, n2: string)
    requires DirectionPrefix(pressed) + n == DirectionPrefix(pressed2) + n2
    ensures pressed == pressed2 && n == n2
  {
    var p, p2 := DirectionPrefix(pressed), DirectionPrefix(pressed2);
    assert (p + n)[3] == p[3] && (p2 + n2)[3] == p2[3];
    assert n == (p + n)[|p|..] == (p2 + n2)[|p2|..] == n2;
  }

  /** A key event's detail text tells which key it was and whether it was pressed or released. */
  lemma KeyDetailIdentifiesEvent(k: KeyCode, pressed: bool, k2: KeyCode, pressed2: bool)
    ensures Detail(KeyData(k, pressed)) == Detail(KeyData(k2, pressed2)) <==> k == k2 && pressed == pressed2
  {
    KeyDetailParts(k, pressed);
    KeyDetailParts(k2, pressed2);
    if Detail(KeyData(k, pressed)) == Detail(KeyData(k2, pressed2)) {
      DirectionPrefixesSplit(pressed, KeyName(k), pressed2, KeyName(k2));
      KeyNameIsInjective(k, k2);
    }
  }

  /** The dispatcher scenarios: a matching handler marks the event, a mismatched one never runs. */
  method DispatchScenario() returns (handled: bool, marked: bool, mismatched: bool, mismatchedMarked: bool)
    ensures handled && marked && !mismatched && !mismatchedMarked
  {
    var e := new Event(ResizeData(800, 600));
    ghost var called;
    handled, called := Dispatch(e, WindowResize, true);
    marked := e.IsHandled();

    var e2 := new Event(ResizeData(800, 600));
    mismatched, called := Dispatch(e2, MouseButtonDown, true);
    mismatchedMarked := e2.IsHandled();
  }
}
