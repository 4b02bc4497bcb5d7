/** The window-system events the input contexts consume, and the
    press/release discipline both contexts apply to keys and mouse buttons:
    a press adds the element to the pressed set, and a release moves it to
    the released set only if it was pressed. */
module InputEvents {

  datatype KeyCode = KeyCode(code: nat)

  /** A key as the keyboard reports it: a known code or an unidentified
      native scan code. */
  datatype PhysicalKey = Code(key: KeyCode) | Unidentified(native: nat)

  datatype MouseButton = Left | Right | Middle | Back | Forward | OtherButton(id: nat)

  datatype ElementState = Pressed | Released

  datatype Position = Position(x: real, y: real)

  datatype WindowEvent =
    | KeyboardInput(physicalKey: PhysicalKey, state: ElementState)
    | MouseInput(state: ElementState, button: MouseButton)
    | CursorMoved(position: Position)
    | CursorEntered
    | CursorLeft
    | OtherWindowEvent

  datatype DeviceEvent = MouseMotion(delta: (real, real)) | OtherDeviceEvent

  datatype Event = WindowEvent(windowEvent: WindowEvent) | DeviceEvent(deviceEvent: DeviceEvent) | OtherEvent

  /** The pressed and released sets of one kind of element. */
  datatype Held<T> = Held(pressed: set<T>, released: set<T>)

  /** `pressed.insert(x)`. */
  function Press<T>(h: Held<T>, x: T): (r: Held<T>)
    ensures x in r.pressed && r.released == h.released
    ensures r.pressed - {x} == h.pressed - {x}
  {
    Held(h.pressed + {x}, h.released)
  }

  /** `pressed.take(x)` followed, when it found x, by `released.insert(x)`. */
  function Release<T>(h: Held<T>, x: T): (r: Held<T>)
    ensures x !in r.pressed
    ensures x in r.released <==> x in h.pressed || x in h.released
    ensures x !in h.pressed ==> r == h
    ensures r.pressed - {x} == h.pressed - {x} && r.released - {x} == h.released - {x}
  {
    if x in h.pressed then Held(h.pressed - {x}, h.released + {x}) else h
  }

  /** The effect of a button event on the sets it concerns. */
  function Apply<T>(h: Held<T>, x: T, state: ElementState): Held<T>
  {
    match state
    case Pressed => Press(h, x)
    case Released => Release(h, x)
  }

  /** Neither a press nor a release loses an element: whatever was pressed or
      released stays pressed or released. */
  lemma ApplyKeepsSeen<T>(h: Held<T>, x: T, state: ElementState)
    ensures h.pressed + h.released <= Apply(h, x, state).pressed + Apply(h, x, state).released
    ensures Apply(h, x, state).pressed + Apply(h, x, state).released <= h.pressed + h.released + {x}
  {
  }
}
