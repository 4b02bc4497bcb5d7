/** `Camera2D`: the camera's position and speed, its key bindings (one key
    per camera action) and the set of actions currently active, which the
    input systems update from the keys pressed and released. */
module Camera {
  import opened Common
  import opened InputEvents
  import Context

  datatype CameraAction = Up | Right | Left | Down | ZoomIn | ZoomOut

  /** The actions after one pass of the action loop: a bound action becomes
      active when its key is pressed and inactive when its key is released,
      the release being applied after the press; an unbound action keeps its
      membership. */
  function ActionsAfter(actions: set<CameraAction>, bindings: map<CameraAction, KeyCode>,
                        pressed: set<PhysicalKey>, released: set<PhysicalKey>): set<CameraAction>
  {
    (actions - bindings.Keys) +
    set a | a in bindings && (a in actions || Code(bindings[a]) in pressed) && Code(bindings[a]) !in released
  }

  /** The bindings after inserting the pairs in order. */
  function BindAll(m: map<CameraAction, KeyCode>, inputs: seq<(CameraAction, KeyCode)>): map<CameraAction, KeyCode>
  {
    if inputs == [] then m
    else
      var last := inputs[|inputs| - 1];
      BindAll(m, inputs[..|inputs| - 1])[last.0 := last.1]
  }

  /** The actions named in the pairs. */
  function ActionsOf(inputs: seq<(CameraAction, KeyCode)>): set<CameraAction>
  {
    set i | 0 <= i < |inputs| :: inputs[i].0
  }

  class Camera2D {
    var keyCodes: map<CameraAction, KeyCode>
    var currentActions: set<CameraAction>
    var position: Vector3
    var speed: real

    /** `Camera2D::new`: no bindings, no active action, the camera at
        (0, 0, 1). */
    constructor (speed: real)
      ensures keyCodes == map[] && currentActions == {}
      ensures position == Vector3(0.0, 0.0, 1.0) && this.speed == speed
    {
      keyCodes := map[];
      currentActions := {};
      position := Vector3(0.0, 0.0, 1.0);
      this.speed := speed;
    }

    /** `Camera2DSystem::transform`. */
    method Transform(position: Vector3)
      modifies this
      ensures this.position == position
      ensures keyCodes == old(keyCodes) && currentActions == old(currentActions) && speed == old(speed)
    {
      this.position := position;
    }

    /** `Camera2DSystem::set_speed`. */
    method SetSpeed(speed: real)
      modifies this
      ensures this.speed == speed
      ensures keyCodes == old(keyCodes) && currentActions == old(currentActions) && position == old(position)
    {
      this.speed := speed;
    }

    /** `Camera2DSystem::set_inputs`: the pairs are inserted in order. */
    method SetInputs(inputs: seq<(CameraAction, KeyCode)>)
      modifies this
      ensures keyCodes == BindAll(old(keyCodes), inputs)
      ensures currentActions == old(currentActions) && position == old(position) && speed == old(speed)
    {
      var i := 0;
      while i < |inputs|
        invariant i <= |inputs|
        invariant keyCodes == BindAll(old(keyCodes), inputs[..i])
        invariant currentActions == old(currentActions) && position == old(position) && speed == old(speed)
      {
        assert inputs[..i + 1][..i] == inputs[..i];
        keyCodes := keyCodes[inputs[i].0 := inputs[i].1];
        i := i + 1;
      }
      assert inputs[..i] == inputs;
    }

    /** `Camera2DSystem::remove_inputs`: the binding of every named action is
        removed, whatever key the pair gives. */
    method RemoveInputs(inputs: seq<(CameraAction, KeyCode)>)
      modifies this
      ensures keyCodes == old(keyCodes) - ActionsOf(inputs)
      ensures currentActions == old(currentActions) && position == old(position) && speed == old(speed)
    {
      var i := 0;
      while i < |inputs|
        invariant i <= |inputs|
        invariant keyCodes == old(keyCodes) - ActionsOf(inputs[..i])
        invariant currentActions == old(currentActions) && position == old(position) && speed == old(speed)
      {
        assert ActionsOf(inputs[..i + 1]) == ActionsOf(inputs[..i]) + {inputs[i].0} by {
          assert forall j :: 0 <= j < i ==> inputs[..i + 1][j] == inputs[..i][j];
          assert inputs[..i + 1][i] == inputs[i];
        }
        keyCodes := keyCodes - {inputs[i].0};
        i := i + 1;
      }
      assert inputs[..i] == inputs;
    }

    /** `Camera2DSystem::reset_inputs`: the bindings go, the active actions
        stay. */
    method ResetInputs()
      modifies this
      ensures keyCodes == map[]
      ensures currentActions == old(currentActions) && position == old(position) && speed == old(speed)
    {
      keyCodes := map[];
    }

    /** The action loop shared by both input systems, over the bindings in
        whatever order the map yields them. */
    method UpdateActions(pressed: set<PhysicalKey>, released: set<PhysicalKey>)
      modifies this
      ensures currentActions == ActionsAfter(old(currentActions), keyCodes, pressed, released)
      ensures keyCodes == old(keyCodes) && position == old(position) && speed == old(speed)
    {
      var remaining := keyCodes.Keys;
      while remaining != {}
        invariant remaining <= keyCodes.Keys
        invariant currentActions == ActionsAfter(old(currentActions), keyCodes - remaining, pressed, released)
        invariant keyCodes == old(keyCodes) && position == old(position) && speed == old(speed)
        decreases remaining
      {
        var action :| action in remaining;
        var key := keyCodes[action];
        assert keyCodes - (remaining - {action}) == (keyCodes - remaining)[action := key];
        if Code(key) in pressed {
          currentActions := currentActions + {action};
        }
        if Code(key) in released {
          currentActions := currentActions - {action};
        }
        remaining := remaining - {action};
      }
      assert keyCodes - remaining == keyCodes;
    }

    /** `Camera2DSystem::process_inputs`, action part: driven by a
        `Context2D`. */
    method ProcessInputs(ctx: Context.Context2D)
      modifies this
      ensures currentActions == ActionsAfter(old(currentActions), keyCodes, ctx.keysPressed, ctx.keysReleased)
      ensures keyCodes == old(keyCodes)
    {
      UpdateActions(ctx.keysPressed, ctx.keysReleased);
    }
  }

  /** Only the last binding given for an action counts. */
  lemma {:induction false} LastBindingWins(m: map<CameraAction, KeyCode>, inputs: seq<(CameraAction, KeyCode)>, i: nat)
    requires i < |inputs|
    requires forall j :: i < j < |inputs| ==> inputs[j].0 != inputs[i].0
    ensures inputs[i].0 in BindAll(m, inputs) && BindAll(m, inputs)[inputs[i].0] == inputs[i].1
  {
    if i < |inputs| - 1 {
      LastBindingWins(m, inputs[..|inputs| - 1], i);
    }
  }

  /** Binding adds exactly the named actions and leaves every other binding
      as it was. */
  lemma {:induction false} BindAllKeys(m: map<CameraAction, KeyCode>, inputs: seq<(CameraAction, KeyCode)>)
    ensures BindAll(m, inputs).Keys == m.Keys + ActionsOf(inputs)
    ensures forall a :: a in m && a !in ActionsOf(inputs) ==> BindAll(m, inputs)[a] == m[a]
  {
    if inputs != [] {
      var prefix := inputs[..|inputs| - 1];
      BindAllKeys(m, prefix);
      assert ActionsOf(inputs) == ActionsOf(prefix) + {inputs[|inputs| - 1].0} by {
        assert forall j :: 0 <= j < |prefix| ==> prefix[j] == inputs[j];
      }
    }
  }

  /** After the loop a bound action is active exactly when it was active or
      its key is pressed, and its key is not released. */
  lemma BoundActionIff(actions: set<CameraAction>, bindings: map<CameraAction, KeyCode>,
                       pressed: set<PhysicalKey>, released: set<PhysicalKey>, a: CameraAction)
    requires a in bindings
    ensures a in ActionsAfter(actions, bindings, pressed, released) <==>
            (a in actions || Code(bindings[a]) in pressed) && Code(bindings[a]) !in released
  {
  }

  /** A key pressed and released in the same frame leaves its action
      inactive. */
  lemma PressedAndReleasedInactive(actions: set<CameraAction>, bindings: map<CameraAction, KeyCode>,
                                   pressed: set<PhysicalKey>, released: set<PhysicalKey>, a: CameraAction)
    requires a in bindings && Code(bindings[a]) in pressed && Code(bindings[a]) in released
    ensures a !in ActionsAfter(actions, bindings, pressed, released)
  {
  }

  /** Unbound actions, and bound actions whose key is neither pressed nor
      released, keep their membership. */
  lemma UntouchedActionsKept(actions: set<CameraAction>, bindings: map<CameraAction, KeyCode>,
                             pressed: set<PhysicalKey>, released: set<PhysicalKey>, a: CameraAction)
    requires a !in bindings || (Code(bindings[a]) !in pressed && Code(bindings[a]) !in released)
    ensures a in ActionsAfter(actions, bindings, pressed, released) <==> a in actions
  {
  }

  /** Running the loop twice on the same key sets changes nothing the
      first run did not. */
  lemma ActionsAfterIdempotent(actions: set<CameraAction>, bindings: map<CameraAction, KeyCode>,
                               pressed: set<PhysicalKey>, released: set<PhysicalKey>)
    ensures var once := ActionsAfter(actions, bindings, pressed, released);
            ActionsAfter(once, bindings, pressed, released) == once
  {
  }
}
