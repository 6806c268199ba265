// Keyboard and mouse state for the free-flying camera: which keys and buttons are held, the
// last cursor position and the movement since, and the camera commands a frame issues.
module Input {
  import opened Wrappers
  import Runtime

  datatype Key = KeyW | KeyA | KeyS | KeyD | OtherKey(code: nat)

  datatype MouseButton = Left | Right | Middle | Back | Forward | OtherButton(n: nat)

  datatype ElementState = Pressed | Released

  datatype InputConfig = InputConfig(moveSpeed: real, mouseSensitivity: real)

  const DefaultInputConfig := InputConfig(10.0, 0.25)

  /** The camera calls `update_camera` makes. The camera itself is not part of this model. */
  datatype CameraCommand = Walk(distance: real) | Strafe(distance: real) | Pitch(angle: real) | RotateY(angle: real)

  /** `std::f32::consts::PI` as an f32 value. */
  const PI: real := 3.1415927410125732

  function Abs(x: real): real { if x < 0.0 then -x else x }

  /** `handle_keyboard_movement`: W, S, A, D in that order, each a step of speed × time. */
  function MovementCommands(keys: set<Key>, moveSpeed: real, deltaTime: real): (r: seq<CameraCommand>)
    ensures |r| <= 4
  {
    var distance := moveSpeed * deltaTime;
    (if KeyW in keys then [Walk(-distance)] else []) +
    (if KeyS in keys then [Walk(distance)] else []) +
    (if KeyA in keys then [Strafe(-distance)] else []) +
    (if KeyD in keys then [Strafe(distance)] else [])
  }

  /**
   * `handle_mouse_rotation`: nothing without the right button or with a movement under a
   * thousandth of a pixel on both axes; otherwise a pitch and then a yaw, in radians.
   */
  function RotationCommands(buttons: set<MouseButton>, delta: (real, real), sensitivity: real): (r: seq<CameraCommand>)
    ensures Right !in buttons ==> r == []
    ensures r == [] || (|r| == 2 && r[0].Pitch? && r[1].RotateY?)
    ensures delta == (0.0, 0.0) ==> r == []
  {
    if Right !in buttons then []
    else if Abs(delta.0) < 0.001 && Abs(delta.1) < 0.001 then []
    else
      var dx := -delta.0 * sensitivity * PI / 180.0;
      var dy := -delta.1 * sensitivity * PI / 180.0;
      [Pitch(dy), RotateY(dx)]
  }

  /** Where a cursor move leaves the position, the movement and the first-move flag. */
  datatype MouseTrack = MouseTrack(last: (real, real), delta: (real, real), first: bool)

  /**
   * `on_mouse_move`: the first move after creation or a reset only records the position;
   * later moves record the difference, with y reversed under the wgpu backend.
   */
  function MoveStep(t: MouseTrack, position: (real, real), backend: Option<Runtime.RendererBackendKind>): (r: MouseTrack)
    ensures r.last == position && !r.first
    ensures t.first ==> r.delta == t.delta
    ensures !t.first ==> t.last.0 + r.delta.0 == position.0
    ensures !t.first && backend != Some(Runtime.Wgpu) ==> t.last.1 + r.delta.1 == position.1
    ensures !t.first && backend == Some(Runtime.Wgpu) ==> t.last.1 - r.delta.1 == position.1
  {
    if t.first then MouseTrack(position, t.delta, false)
    else
      var dx := position.0 - t.last.0;
      var dy := position.1 - t.last.1;
      MouseTrack(position, (dx, if backend == Some(Runtime.Wgpu) then -dy else dy), false)
  }

  class InputSystem {
    var pressedKeys: set<Key>
    var lastMousePos: (real, real)
    var mouseButtons: set<MouseButton>
    var mouseDelta: (real, real)
    var moveSpeed: real
    var mouseSensitivity: real
    var firstMouse: bool
    var cursorLocked: bool

    /** `with_config`: nothing held, cursor free, and the next move treated as the first. */
    constructor WithConfig(config: InputConfig)
      ensures pressedKeys == {} && mouseButtons == {} && firstMouse && !cursorLocked
      ensures lastMousePos == (0.0, 0.0) && mouseDelta == (0.0, 0.0)
      ensures moveSpeed == config.moveSpeed && mouseSensitivity == config.mouseSensitivity
    {
      pressedKeys := {};
      lastMousePos := (0.0, 0.0);
      mouseButtons := {};
      mouseDelta := (0.0, 0.0);
      moveSpeed := config.moveSpeed;
      mouseSensitivity := config.mouseSensitivity;
      firstMouse := true;
      cursorLocked := false;
    }

    /** `new`: the default speed of 10 units per second and sensitivity of 0.25 degrees per pixel. */
    constructor ()
      ensures pressedKeys == {} && mouseButtons == {} && firstMouse && !cursorLocked
      ensures lastMousePos == (0.0, 0.0) && mouseDelta == (0.0, 0.0)
      ensures moveSpeed == 10.0 && mouseSensitivity == 0.25
    {
      pressedKeys := {};
      lastMousePos := (0.0, 0.0);
      mouseButtons := {};
      mouseDelta := (0.0, 0.0);
      moveSpeed := DefaultInputConfig.moveSpeed;
      mouseSensitivity := DefaultInputConfig.mouseSensitivity;
      firstMouse := true;
      cursorLocked := false;
    }

    function Track(): MouseTrack
      reads this
    {
      MouseTrack(lastMousePos, mouseDelta, firstMouse)
    }

    /** `on_keyboard_input`: a press adds the key, a release removes it; the event is always consumed. */
    method OnKeyboardInput(key: Key, state: ElementState) returns (consumed: bool)
      modifies this
      ensures consumed
      ensures pressedKeys == if state == Pressed then old(pressedKeys) + {key} else old(pressedKeys) - {key}
      ensures mouseButtons == old(mouseButtons) && Track() == old(Track()) && cursorLocked == old(cursorLocked)
      ensures moveSpeed == old(moveSpeed) && mouseSensitivity == old(mouseSensitivity)
    {
      match state {
        case Pressed => pressedKeys := pressedKeys + {key};
        case Released => pressedKeys := pressedKeys - {key};
      }
      consumed := true;
    }

    /**
     * `on_mouse_button`: a press adds the button and a release removes it. The right button
     * also locks the cursor on press and unlocks it on release; `grabSucceeds` is whether the
     * window granted a confined or locked grab.
     */
    method OnMouseButton(button: MouseButton, state: ElementState, grabSucceeds: bool)
      modifies this
      ensures mouseButtons == if state == Pressed then old(mouseButtons) + {button} else old(mouseButtons) - {button}
      ensures button != Right ==> cursorLocked == old(cursorLocked)
      ensures button == Right && state == Pressed ==> cursorLocked == (old(cursorLocked) || grabSucceeds)
      ensures button == Right && state == Released ==> !cursorLocked
      ensures pressedKeys == old(pressedKeys) && Track() == old(Track())
      ensures moveSpeed == old(moveSpeed) && mouseSensitivity == old(mouseSensitivity)
    {
      match state {
        case Pressed =>
          mouseButtons := mouseButtons + {button};
          if button == Right {
            LockCursor(grabSucceeds);
          }
        case Released =>
          mouseButtons := mouseButtons - {button};
          if button == Right {
            UnlockCursor();
          }
      }
    }

    /** `lock_cursor`: nothing when already locked; otherwise locked exactly when a grab succeeds. */
    method LockCursor(grabSucceeds: bool)
      modifies this
      ensures cursorLocked == (old(cursorLocked) || grabSucceeds)
      ensures pressedKeys == old(pressedKeys) && mouseButtons == old(mouseButtons) && Track() == old(Track())
      ensures moveSpeed == old(moveSpeed) && mouseSensitivity == old(mouseSensitivity)
    {
      if cursorLocked {
        return;
      }
      if grabSucceeds {
        cursorLocked := true;
      }
    }

    /** `unlock_cursor`: unlocked afterwards whether or not releasing the grab succeeds. */
    method UnlockCursor()
      modifies this
      ensures !cursorLocked
      ensures pressedKeys == old(pressedKeys) && mouseButtons == old(mouseButtons) && Track() == old(Track())
      ensures moveSpeed == old(moveSpeed) && mouseSensitivity == old(mouseSensitivity)
    {
      cursorLocked := false;
    }

    /** `on_mouse_move`; `backend` is the process-wide renderer backend the source consults. */
    method OnMouseMove(position: (real, real), backend: Option<Runtime.RendererBackendKind>)
      modifies this
      ensures Track() == MoveStep(old(Track()), position, backend)
      ensures pressedKeys == old(pressedKeys) && mouseButtons == old(mouseButtons) && cursorLocked == old(cursorLocked)
      ensures moveSpeed == old(moveSpeed) && mouseSensitivity == old(mouseSensitivity)
    {
      if firstMouse {
        lastMousePos := position;
        firstMouse := false;
        return;
      }
      var dx := position.0 - lastMousePos.0;
      var dy := position.1 - lastMousePos.1;
      if backend == Some(Runtime.Wgpu) {
        dy := -dy;
      }
      mouseDelta := (dx, dy);
      lastMousePos := position;
    }

    /**
     * `update_camera`: the movement for the held keys, then the rotation for the mouse
     * movement, after which the movement is cleared for the next frame.
     */
    method UpdateCamera(deltaTime: real) returns (commands: seq<CameraCommand>)
      modifies this
      ensures commands == MovementCommands(old(pressedKeys), old(moveSpeed), deltaTime) +
                          RotationCommands(old(mouseButtons), old(mouseDelta), old(mouseSensitivity))
      ensures mouseDelta == (0.0, 0.0)
      ensures lastMousePos == old(lastMousePos) && firstMouse == old(firstMouse)
      ensures pressedKeys == old(pressedKeys) && mouseButtons == old(mouseButtons) && cursorLocked == old(cursorLocked)
      ensures moveSpeed == old(moveSpeed) && mouseSensitivity == old(mouseSensitivity)
    {
      commands := MovementCommands(pressedKeys, moveSpeed, deltaTime);
      commands := commands + RotationCommands(mouseButtons, mouseDelta, mouseSensitivity);
      mouseDelta := (0.0, 0.0);
    }

    /** `reset_mouse`: no movement, and the next move is treated as the first. */
    method ResetMouse()
      modifies this
      ensures mouseDelta == (0.0, 0.0) && firstMouse
      ensures lastMousePos == old(lastMousePos)
      ensures pressedKeys == old(pressedKeys) && mouseButtons == old(mouseButtons) && cursorLocked == old(cursorLocked)
      ensures moveSpeed == old(moveSpeed) && mouseSensitivity == old(mouseSensitivity)
    {
      mouseDelta := (0.0, 0.0);
      firstMouse := true;
    }

    function IsKeyPressed(key: Key): bool
      reads this
    {
      key in pressedKeys
    }

    function IsMouseButtonPressed(button: MouseButton): bool
      reads this
    {
      button in mouseButtons
    }

    method SetMoveSpeed(speed: real)
      modifies this
      ensures moveSpeed == speed && mouseSensitivity == old(mouseSensitivity)
      ensures pressedKeys == old(pressedKeys) && mouseButtons == old(mouseButtons) && Track() == old(Track())
      ensures cursorLocked == old(cursorLocked)
    {
      moveSpeed := speed;
    }

    method SetMouseSensitivity(sensitivity: real)
      modifies this
      ensures mouseSensitivity == sensitivity && moveSpeed == old(moveSpeed)
      ensures pressedKeys == old(pressedKeys) && mouseButtons == old(mouseButtons) && Track() == old(Track())
      ensures cursorLocked == old(cursorLocked)
    {
      mouseSensitivity := sensitivity;
    }
  }

  /**
   * After creation or a reset, the first move leaves the movement alone and the second gives
   * the difference between the two positions, with y reversed under wgpu.
   */
  lemma FirstMoveOnlyRecords(t: MouseTrack, p1: (real, real), p2: (real, real), backend: Option<Runtime.RendererBackendKind>)
    requires t.first
    ensures MoveStep(t, p1, backend) == MouseTrack(p1, t.delta, false)
    ensures MoveStep(MoveStep(t, p1, backend), p2, backend).delta ==
      (p2.0 - p1.0, if backend == Some(Runtime.Wgpu) then p1.1 - p2.1 else p2.1 - p1.1)
    ensures MoveStep(MoveStep(t, p1, backend), p2, backend).last == p2
  {
  }

  /** Holding opposite keys issues both steps, which cancel out. */
  lemma OppositeKeysCancel(keys: set<Key>, speed: real, dt: real)
    requires KeyW in keys && KeyS in keys && KeyA !in keys && KeyD !in keys
    ensures MovementCommands(keys, speed, dt) == [Walk(-(speed * dt)), Walk(speed * dt)]
    ensures MovementCommands(keys, speed, dt)[0].distance + MovementCommands(keys, speed, dt)[1].distance == 0.0
  {
  }

  /** Each held movement key issues exactly one command, and no other key issues any. */
  lemma OneCommandPerMovementKey(keys: set<Key>, speed: real, dt: real)
    ensures |MovementCommands(keys, speed, dt)| ==
      (if KeyW in keys then 1 else 0) + (if KeyS in keys then 1 else 0) +
      (if KeyA in keys then 1 else 0) + (if KeyD in keys then 1 else 0)
    ensures MovementCommands(keys, speed, dt) == MovementCommands(keys * {KeyW, KeyS, KeyA, KeyD}, speed, dt)
  {
  }

  /**
   * Rotation needs the right button: without it the mouse never turns the camera. With it, a
   * move to the right turns the camera to the left.
   */
  lemma RotationNeedsRightButton(buttons: set<MouseButton>, delta: (real, real), sensitivity: real)
    ensures Right !in buttons ==> RotationCommands(buttons, delta, sensitivity) == []
    ensures Right in buttons && delta.0 >= 0.001 && sensitivity > 0.0 ==>
      |RotationCommands(buttons, delta, sensitivity)| == 2 && RotationCommands(buttons, delta, sensitivity)[1].angle < 0.0
  {
    if Right in buttons && delta.0 >= 0.001 && sensitivity > 0.0 {
      var x := delta.0 * sensitivity;
      assert x > 0.0;
      assert -delta.0 * sensitivity * PI / 180.0 == -(x * PI) / 180.0;
      assert x * PI > 0.0;
    }
  }

  /** A key pressed and then released leaves the held keys as they were before. */
  method PressThenReleaseScenario(input: InputSystem, k: Key)
    requires k !in input.pressedKeys
    modifies input
    ensures input.pressedKeys == old(input.pressedKeys)
  {
    var _ := input.OnKeyboardInput(k, Pressed);
    assert input.IsKeyPressed(k);
    var _ := input.OnKeyboardInput(k, Released);
    assert !input.IsKeyPressed(k);
  }

  /** `update_camera` leaves no movement, so a second call in the same frame rotates nothing. */
  method UpdateTwiceScenario(input: InputSystem, dt: real) returns (second: seq<CameraCommand>)
    modifies input
    ensures second == MovementCommands(input.pressedKeys, input.moveSpeed, dt)
  {
    var first := input.UpdateCamera(dt);
    second := input.UpdateCamera(dt);
    assert RotationCommands(input.mouseButtons, input.mouseDelta, input.mouseSensitivity) == [];
  }
}
