/** `Context2D`: the keys and mouse buttons held down, and those released
    since the last `clear_released`, kept up to date from window events. */
module Context {
  import opened InputEvents

  datatype ContextState = ContextState(keys: Held<PhysicalKey>, mouse: Held<MouseButton>)

  function Initial(): ContextState
  {
    ContextState(Held({}, {}), Held({}, {}))
  }

  /** `Context2DSystem::update`: keyboard and mouse-button input follow the
      press/release discipline; every other event is ignored. */
  function Step(s: ContextState, e: Event): ContextState
  {
    match e
    case WindowEvent(KeyboardInput(key, state)) => s.(keys := Apply(s.keys, key, state))
    case WindowEvent(MouseInput(state, button)) => s.(mouse := Apply(s.mouse, button, state))
    case _ => s
  }

  /** The state after the events, in order. */
  function Run(s: ContextState, events: seq<Event>): ContextState
  {
    if events == [] then s else Step(Run(s, events[..|events| - 1]), events[|events| - 1])
  }

  /** `Context2DSystem::clear_released`. */
  function Cleared(s: ContextState): ContextState
  {
    ContextState(Held(s.keys.pressed, {}), Held(s.mouse.pressed, {}))
  }

  predicate IsButtonEvent(e: Event)
  {
    e.WindowEvent? && (e.windowEvent.KeyboardInput? || e.windowEvent.MouseInput?)
  }

  predicate ConcernsKey(e: Event, key: PhysicalKey)
  {
    e.WindowEvent? && e.windowEvent.KeyboardInput? && e.windowEvent.physicalKey == key
  }

  /** The keys some event in `events` presses. */
  function KeysPressedIn(events: seq<Event>): set<PhysicalKey>
  {
    if events == [] then {}
    else
      var e := events[|events| - 1];
      KeysPressedIn(events[..|events| - 1]) +
      (if e.WindowEvent? && e.windowEvent.KeyboardInput? && e.windowEvent.state == Pressed
       then {e.windowEvent.physicalKey} else {})
  }

  class Context2D {
    var keysPressed: set<PhysicalKey>
    var keysReleased: set<PhysicalKey>
    var mousePressed: set<MouseButton>
    var mouseReleased: set<MouseButton>

    /** `Context2D::new`: all four sets empty. */
    constructor ()
      ensures State() == Initial()
    {
      keysPressed, keysReleased := {}, {};
      mousePressed, mouseReleased := {}, {};
    }

    function State(): ContextState
      reads this
    {
      ContextState(Held(keysPressed, keysReleased), Held(mousePressed, mouseReleased))
    }

    predicate IsKeyPressed(key: KeyCode)
      reads this
    {
      Code(key) in keysPressed
    }

    predicate IsKeyReleased(key: KeyCode)
      reads this
    {
      Code(key) in keysReleased
    }

    predicate IsMousePressed(button: MouseButton)
      reads this
    {
      button in mousePressed
    }

    predicate IsMouseReleased(button: MouseButton)
      reads this
    {
      button in mouseReleased
    }

    /** `Context2DSystem::update`. */
    method Update(e: Event)
      modifies this
      ensures State() == Step(old(State()), e)
    {
      match e {
        case WindowEvent(KeyboardInput(key, state)) =>
          if state == Pressed {
            keysPressed := keysPressed + {key};
          } else if key in keysPressed {
            keysPressed := keysPressed - {key};
            keysReleased := keysReleased + {key};
          }
        case WindowEvent(MouseInput(state, button)) =>
          if state == Pressed {
            mousePressed := mousePressed + {button};
          } else if button in mousePressed {
            mousePressed := mousePressed - {button};
            mouseReleased := mouseReleased + {button};
          }
        case _ =>
      }
    }

    /** `Context2DSystem::clear_released`: empties the released sets only. */
    method ClearReleased()
      modifies this
      ensures State() == Cleared(old(State()))
    {
      keysReleased := {};
      mouseReleased := {};
    }
  }

  /** From the initial state, every key held or released was pressed by
      some event: a release alone never puts a key in the released set. */
  lemma {:induction false} KeysSeenWerePressed(events: seq<Event>)
    ensures Run(Initial(), events).keys.pressed + Run(Initial(), events).keys.released <= KeysPressedIn(events)
  {
    if events != [] {
      var prefix := events[..|events| - 1];
      KeysSeenWerePressed(prefix);
      var e := events[|events| - 1];
      if e.WindowEvent? && e.windowEvent.KeyboardInput? {
        ApplyKeepsSeen(Run(Initial(), prefix).keys, e.windowEvent.physicalKey, e.windowEvent.state);
      }
    }
  }

  /** Events that are neither keyboard nor mouse-button input leave the
      context as it was. */
  lemma {:induction false} NonInputEventsIgnored(s: ContextState, events: seq<Event>)
    requires forall i :: 0 <= i < |events| ==> !IsButtonEvent(events[i])
    ensures Run(s, events) == s
  {
    if events != [] {
      NonInputEventsIgnored(s, events[..|events| - 1]);
    }
  }

  /** Events about other keys do not change whether a key is pressed or
      released, so the last event about a key decides whether it is held. */
  lemma {:induction false} OtherKeysIndependent(s: ContextState, events: seq<Event>, key: PhysicalKey)
    requires forall i :: 0 <= i < |events| ==> !ConcernsKey(events[i], key)
    ensures key in Run(s, events).keys.pressed <==> key in s.keys.pressed
    ensures key in Run(s, events).keys.released <==> key in s.keys.released
  {
    if events != [] {
      OtherKeysIndependent(s, events[..|events| - 1], key);
    }
  }

  /** A key pressed and then released, with only events about other keys
      after the release, ends up released and not held. */
  lemma PressThenRelease(s: ContextState, key: PhysicalKey, later: seq<Event>)
    requires forall i :: 0 <= i < |later| ==> !ConcernsKey(later[i], key)
    ensures var events := [WindowEvent(KeyboardInput(key, Pressed)), WindowEvent(KeyboardInput(key, Released))] + later;
            key !in Run(s, events).keys.pressed && key in Run(s, events).keys.released
  {
    var first := [WindowEvent(KeyboardInput(key, Pressed)), WindowEvent(KeyboardInput(key, Released))];
    var events := first + later;
    var mid := Run(s, first);
    assert first[..1] == [first[0]];
    assert Run(s, first[..1]) == Step(s, first[0]);
    assert key !in mid.keys.pressed && key in mid.keys.released;
    RunAppend(s, first, later);
    OtherKeysIndependent(mid, later, key);
  }

  /** Running two batches of events one after the other is running them
      together. */
  lemma {:induction false} RunAppend(s: ContextState, first: seq<Event>, second: seq<Event>)
    ensures Run(s, first + second) == Run(Run(s, first), second)
    decreases |second|
  {
    if second == [] {
      assert first + second == first;
    } else {
      var last := second[|second| - 1];
      assert (first + second)[..|first + second| - 1] == first + second[..|second| - 1];
      RunAppend(s, first, second[..|second| - 1]);
    }
  }
}
