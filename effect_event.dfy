/** `EffectEvent`: the input context of the event crate. Besides the held
    and released keys and mouse buttons it tracks whether the cursor is in
    the window, where it is, and the last raw mouse motion. */
module EffectInput {
  import opened InputEvents
  import Context

  datatype EffectState = EffectState(
    keys: Held<PhysicalKey>,
    mouse: Held<MouseButton>,
    mouseWithinWindow: bool,
    mousePosition: Position,
    mouseTravel: (real, real))

  function Initial(): EffectState
  {
    EffectState(Held({}, {}), Held({}, {}), false, Position(0.0, 0.0), (0.0, 0.0))
  }

  /** `EffectEventSystem::update`. */
  function Step(s: EffectState, e: Event): EffectState
  {
    match e
    case WindowEvent(KeyboardInput(key, state)) => s.(keys := Apply(s.keys, key, state))
    case WindowEvent(MouseInput(state, button)) => s.(mouse := Apply(s.mouse, button, state))
    case WindowEvent(CursorMoved(position)) => s.(mousePosition := position)
    case WindowEvent(CursorEntered) => s.(mouseWithinWindow := true)
    case WindowEvent(CursorLeft) => s.(mouseWithinWindow := false)
    case DeviceEvent(MouseMotion(delta)) => s.(mouseTravel := delta)
    case _ => s
  }

  function Run(s: EffectState, events: seq<Event>): EffectState
  {
    if events == [] then s else Step(Run(s, events[..|events| - 1]), events[|events| - 1])
  }

  /** `EffectEventSystem::clear_released`. */
  function Cleared(s: EffectState): EffectState
  {
    s.(keys := Held(s.keys.pressed, {}), mouse := Held(s.mouse.pressed, {}))
  }

  /** The key and button part of the state. */
  function Buttons(s: EffectState): Context.ContextState
  {
    Context.ContextState(s.keys, s.mouse)
  }

  predicate IsMotion(e: Event)
  {
    e.DeviceEvent? && e.deviceEvent.MouseMotion?
  }

  class EffectEvent {
    var keysPressed: set<PhysicalKey>
    var keysReleased: set<PhysicalKey>
    var mousePressed: set<MouseButton>
    var mouseReleased: set<MouseButton>
    var mouseWithinWindow: bool
    var mousePosition: Position
    var mouseTravel: (real, real)

    /** `EffectEvent::new`: empty sets, cursor outside, position and travel
        at the origin. */
    constructor ()
      ensures State() == Initial()
    {
      keysPressed, keysReleased := {}, {};
      mousePressed, mouseReleased := {}, {};
      mouseWithinWindow := false;
      mousePosition := Position(0.0, 0.0);
      mouseTravel := (0.0, 0.0);
    }

    function State(): EffectState
      reads this
    {
      EffectState(Held(keysPressed, keysReleased), Held(mousePressed, mouseReleased),
                  mouseWithinWindow, mousePosition, mouseTravel)
    }

    predicate IsKeyPressed(key: KeyCode)
      reads this
    {
      Code(key) in keysPressed
    }

    predicate IsKeyReleased(key: KeyCode)
      reads this
    {
      Code(key) in keysReleased
    }

    predicate IsMousePressed(button: MouseButton)
      reads this
    {
      button in mousePressed
    }

    predicate IsMouseReleased(button: MouseButton)
      reads this
    {
      button in mouseReleased
    }

    /** `EffectEventSystem::update`. */
    method Update(e: Event)
      modifies this
      ensures State() == Step(old(State()), e)
    {
      match e {
        case WindowEvent(KeyboardInput(key, state)) =>
          if state == Pressed {
            keysPressed := keysPressed + {key};
          } else if key in keysPressed {
            keysPressed := keysPressed - {key};
            keysReleased := keysReleased + {key};
          }
        case WindowEvent(MouseInput(state, button)) =>
          if state == Pressed {
            mousePressed := mousePressed + {button};
          } else if button in mousePressed {
            mousePressed := mousePressed - {button};
            mouseReleased := mouseReleased + {button};
          }
        case WindowEvent(CursorMoved(position)) =>
          mousePosition := position;
        case WindowEvent(CursorEntered) =>
          mouseWithinWindow := true;
        case WindowEvent(CursorLeft) =>
          mouseWithinWindow := false;
        case DeviceEvent(MouseMotion(delta)) =>
          mouseTravel := delta;
        case _ =>
      }
    }

    /** `EffectEventSystem::clear_released`: empties the released sets and
        keeps the held sets and the cursor fields. */
    method ClearReleased()
      modifies this
      ensures State() == Cleared(old(State()))
    {
      keysReleased := {};
      mouseReleased := {};
    }
  }

  /** On keys and mouse buttons this context behaves exactly like
      `Context2D`, whatever cursor and motion events are mixed in. */
  lemma {:induction false} ButtonsAgreeWithContext(s: EffectState, events: seq<Event>)
    ensures Buttons(Run(s, events)) == Context.Run(Buttons(s), events)
  {
    if events != [] {
      ButtonsAgreeWithContext(s, events[..|events| - 1]);
    }
  }

  /** Mouse motion replaces the recorded travel rather than adding to it: the
      last motion event decides it, whatever came before. */
  lemma {:induction false} LastMotionWins(s: EffectState, events: seq<Event>, i: nat)
    requires i < |events| && IsMotion(events[i])
    requires forall j :: i < j < |events| ==> !IsMotion(events[j])
    ensures Run(s, events).mouseTravel == events[i].deviceEvent.delta
  {
    var prefix := events[..|events| - 1];
    if i < |events| - 1 {
      LastMotionWins(s, prefix, i);
    }
  }

  /** Clearing and then updating with anything other than a release gives
      no released element. */
  lemma ClearedThenPressHasNothingReleased(s: EffectState, e: Event)
    requires !(e.WindowEvent? && (e.windowEvent.KeyboardInput? || e.windowEvent.MouseInput?) &&
               e.windowEvent.state == Released)
    ensures Step(Cleared(s), e).keys.released == {} && Step(Cleared(s), e).mouse.released == {}
    ensures Step(Cleared(s), e).keys.pressed >= s.keys.pressed
  {
  }
}
