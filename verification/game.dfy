/**
 * The game's process-wide state as one object whose methods update it in
 * place, routine by routine, as the game loop does. The game's global
 * variables are kept in groups named after their prefixes (`player…`,
 * `camera…`, `cameraRight…`/`cameraForward…`, `shift…`, the three input
 * flags); a statement such as `playerX += d` becomes
 * `player := player.(x := player.x + d)`.
 *
 * Each method is proved to leave the object in the state the matching
 * function of `Sim` computes, so everything `SimProperties` proves about
 * those functions holds of the object.
 */
module Game {
  import opened JsMath
  import opened Sim
  import SimProperties

  class Game {
    /** `Math.cos`, `Math.sin` and `Math.PI` */
    const trig: Trig
    /** The level, read-only */
    const platforms: seq<Platform>

    /** `goingLeftInputPart`, `goingRightInputPart`, `jumpingInput` */
    var input: Input
    /** `playerX`, `playerY`, `playerZ`, the two velocities and `playerGrounded` */
    var player: Body
    /** `cameraX`, `cameraY`, `cameraZ`, `cameraAngle`, `cameraSize` */
    var camera: Camera
    /** `cameraRightX`, `cameraRightZ`, `cameraForwardX`, `cameraForwardZ` */
    var basis: Basis
    /** `shifting`, `shiftStart`, `shiftDirection`, `shiftTimer` */
    var shift: Shift
    var sinceTeleportTimer: real
    /** The sound effects fired so far, oldest first */
    var sounds: seq<Sound>

    /** The whole mutable state as one value */
    function State(): World
      reads this
    {
      World(input, player, camera, basis, shift, sinceTeleportTimer, sounds)
    }

    ghost predicate Valid()
      reads this
    {
      trig.Valid() && Inv(State())
    }

    /** The state the game starts in; the camera axes are set to those of angle 0 */
    constructor (trig: Trig, platforms: seq<Platform>)
      requires trig.Valid()
      ensures Valid()
      ensures State() == Initial(trig)
      ensures this.trig == trig && this.platforms == platforms
    {
      this.trig := trig;
      this.platforms := platforms;
      input := Input(0, 0, false);
      player := Body(0.0, 0.0, 0.0, 0.0, 0.0, false);
      camera := Camera(0.0, 0.0, 0.0, 0.0, InitialCameraSize);
      var rightX, rightZ := trig.Cos(0.0), trig.Sin(0.0);
      basis := Basis(rightX, rightZ, -rightZ, rightX);
      shift := Shift(false, 0.0, 0.0, 0.0);
      sinceTeleportTimer := 0.0;
      sounds := [];
    }

    // -------------------------------------------------------------------------
    // Input

    /** A key went down (`pressed`) or up */
    method OnInputChange(key: string, pressed: bool)
      requires Valid()
      modifies this
      ensures Valid()
      ensures State() == Sim.OnInputChange(old(State()), trig, key, pressed)
    {
      if key == JumpKey { input := input.(jump := pressed); }
      if key == LeftKey { input := input.(left := if pressed then -1 else 0); }
      if key == RightKey { input := input.(right := if pressed then 1 else 0); }
      if pressed {
        if key == ShiftLeftKey { ShiftPerspective(-trig.HalfPi()); }
        if key == ShiftRightKey { ShiftPerspective(trig.HalfPi()); }
      }
      SimProperties.InputChangeKeepsInv(old(State()), trig, key, pressed);
    }

    // -------------------------------------------------------------------------
    // The game loop

    /** One tick of the fixed-rate timer, drawing aside */
    method GameLoop()
      requires Valid()
      modifies this
      ensures Valid()
      ensures State() == Tick(old(State()), trig, platforms)
    {
      UpdateTimers();
      UpdateCamera();
      if shift.shifting {
        ShiftingUpdate();
      } else {
        PreparePlayerMovement();
        ApplyPlayerMovement();
        CheckSafetyTeleport();
      }
      SimProperties.TickKeepsInv(old(State()), trig, platforms);
    }

    method UpdateTimers()
      modifies this
      ensures State() == Sim.UpdateTimers(old(State()))
    {
      sinceTeleportTimer := sinceTeleportTimer + TeleportTimerStep;
    }

    method UpdateCamera()
      modifies this
      ensures State() == Sim.UpdateCamera(old(State()), trig)
    {
      var rightX, rightZ := trig.Cos(camera.angle), trig.Sin(camera.angle);
      basis := Basis(rightX, rightZ, -rightZ, rightX);

      camera := camera.(x := camera.x + (player.x - camera.x) * CameraEasing);
      camera := camera.(z := camera.z + (player.z - camera.z) * CameraEasing);

      var targetCameraY := player.y + CameraLift * camera.size;
      camera := camera.(y := camera.y + (targetCameraY - camera.y) * Min(1.0, sinceTeleportTimer));
    }

    // -------------------------------------------------------------------------
    // Perspective shifts

    method ShiftPerspective(direction: real)
      modifies this
      ensures State() == Sim.ShiftPerspective(old(State()), direction)
    {
      if shift.shifting {
        return;
      }
      shift := Shift(true, camera.angle, direction, 0.0);
      sounds := sounds + [ShiftSound(direction)];
    }

    method ShiftingUpdate()
      requires trig.Valid()
      modifies this
      ensures State() == Sim.ShiftingUpdate(old(State()), trig)
    {
      var shiftSineProgress := ShiftProgress(trig, shift.timer);
      camera := camera.(angle := shift.start + shift.direction * shiftSineProgress);

      shift := shift.(timer := shift.timer + ShiftStep);
      if shift.timer > 1.0 {
        camera := camera.(angle := JsRem(shift.start + shift.direction, trig.TwoPi()));
        shift := shift.(shifting := false);
      }
    }

    // -------------------------------------------------------------------------
    // Player kinematics

    method PreparePlayerMovement()
      modifies this
      ensures State() == Sim.PreparePlayerMovement(old(State()))
    {
      var movementInput := input.left + input.right;
      player := player.(hVel := player.hVel + movementInput as real * Acceleration);
      player := player.(hVel := player.hVel * Friction);

      HandleJumping();
      HandleGravity();
    }

    method HandleJumping()
      modifies this
      ensures State() == Sim.HandleJumping(old(State()))
    {
      if player.grounded && input.jump {
        sounds := sounds + [JumpSound];
        player := player.(vVel := JumpVelocity);
      }
    }

    method HandleGravity()
      modifies this
      ensures State() == Sim.HandleGravity(old(State()))
    {
      var gravity := if player.vVel > 0.0 && input.jump then LowGravity else HighGravity;
      player := player.(vVel := player.vVel - gravity);
    }

    /** Horizontal move, collisions in between, then the vertical move */
    method ApplyPlayerMovement()
      modifies this
      ensures State() == Sim.ApplyPlayerMovement(old(State()), platforms)
    {
      player := MoveAlongRight(player, basis);

      HandleCollisions();

      player := player.(y := player.y + player.vVel);
    }

    // -------------------------------------------------------------------------
    // Collisions

    /**
     * Clears the grounded flag and resolves the platforms one after the other;
     * only a landing sets the flag again, and it stops the fall as it does.
     */
    method HandleCollisions()
      modifies this
      ensures State() == old(State()).(player := Sim.HandleCollisions(old(player), old(basis), platforms))
      ensures player.grounded ==> player.vVel == 0.0
    {
      player := player.(grounded := false);
      ghost var start := player;
      var i := 0;
      while i < |platforms|
        invariant 0 <= i <= |platforms|
        invariant State() == old(State()).(player := CollideAll(start, basis, platforms[..i]))
        invariant player.grounded ==> player.vVel == 0.0
      {
        ghost var before := player;
        HandlePlatformCollision(platforms[i]);
        SimProperties.OnlyLandingGrounds(before, basis, Project(before, basis, platforms[i]));
        assert platforms[..i + 1][..i] == platforms[..i];
        i := i + 1;
      }
      assert platforms[..|platforms|] == platforms;
    }

    /**
     * The three distance thresholds and the offsets along the camera's right
     * and forward axes are computed together, as the `View` of the platform
     * from the player.
     */
    method HandlePlatformCollision(platform: Platform)
      modifies this
      ensures State() == old(State()).(player := CollidePlatform(old(player), basis, platform))
    {
      var view := Project(player, basis, platform);

      if Abs(view.rightDelta) < view.widthThreshold {
        var projectedYDeltaAbs := Abs(player.y - platform.y);
        var projectedYAfterMoveDeltaAbs := Abs(player.y + player.vVel - platform.y);

        var correctionDistance := 0.0;

        var overlappingPlatform := projectedYDeltaAbs < view.heightThreshold;
        var willOverlapPlatformAfterMove := projectedYAfterMoveDeltaAbs < view.heightThreshold;

        if overlappingPlatform {
          if view.depthDelta < view.lengthThreshold {
            correctionDistance := view.depthDelta - view.lengthThreshold;
          }
        } else if willOverlapPlatformAfterMove {
          player := player.(y := platform.y + view.heightThreshold, vVel := 0.0, grounded := true);

          if Abs(view.depthDelta) > view.lengthThreshold {
            correctionDistance := view.depthDelta - view.lengthThreshold + 1.0;
          }
        }

        player := PushForward(player, basis, correctionDistance);
      }
    }

    // -------------------------------------------------------------------------
    // Safety teleport

    method CheckSafetyTeleport()
      modifies this
      ensures State() == Sim.CheckSafetyTeleport(old(State()))
    {
      if player.y < DeathHeight {
        TeleportPlayer(0.0, 0.0, 0.0);
      }
    }

    method TeleportPlayer(x: real, y: real, z: real)
      modifies this
      ensures State() == Sim.TeleportPlayer(old(State()), x, y, z)
    {
      player := player.(x := x, y := y, z := z);
      player := player.(hVel := 0.0, vVel := 0.0);
      sinceTeleportTimer := 0.0;
      sounds := sounds + [KillSound];
    }
  }
}
