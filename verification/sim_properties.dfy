/**
 * What the game loop guarantees, proved about the functions of `Sim`.
 */
module SimProperties {
  import opened JsMath
  import opened Sim

  // ---------------------------------------------------------------------------
  // Camera

  /** The two axes are perpendicular and equally long, whatever the angle */
  lemma RotatedBasisIsOrthogonal(b: Basis)
    requires Rotated(b)
    ensures b.rightX * b.forwardX + b.rightZ * b.forwardZ == 0.0
    ensures b.forwardX * b.forwardX + b.forwardZ * b.forwardZ == b.rightX * b.rightX + b.rightZ * b.rightZ
  {
  }

  /** `a + d * s` for `s` in [0, 1] lies between `a` and `a + d` */
  lemma ScaledStepBetween(a: real, d: real, s: real)
    requires 0.0 <= s <= 1.0
    ensures Between(a + d * s, a, a + d)
  {
    if 0.0 <= d {
      assert d - d * s == d * (1.0 - s);
      assert 0.0 <= d * s;
    } else {
      assert d * s - d == -d * (1.0 - s);
      assert d * s <= 0.0 by {
        assert d * s == -((-d) * s);
      }
    }
  }

  /**
   * The camera closes a tenth of its horizontal distance to the player each
   * tick; vertically it moves toward its target by the time since the last
   * teleport, capped at one, so it sits on the target from one time unit after
   * a teleport on. Nothing but the camera and the basis changes.
   */
  lemma CameraEasesTowardPlayer(w: World, trig: Trig)
    ensures var w' := UpdateCamera(w, trig);
      var target := w.player.y + CameraLift * w.camera.size;
      w'.player.x - w'.camera.x == 0.9 * (w.player.x - w.camera.x) &&
      w'.player.z - w'.camera.z == 0.9 * (w.player.z - w.camera.z) &&
      (1.0 <= w.sinceTeleport ==> w'.camera.y == target) &&
      (0.0 <= w.sinceTeleport ==> Between(w'.camera.y, w.camera.y, target)) &&
      w'.camera.angle == w.camera.angle && w'.camera.size == w.camera.size &&
      w'.basis == BasisOf(trig, w.camera.angle) &&
      w'.(camera := w.camera, basis := w.basis) == w
  {
    var target := w.player.y + CameraLift * w.camera.size;
    var k := Min(1.0, w.sinceTeleport);
    var d := target - w.camera.y;
    assert UpdateCamera(w, trig).camera.y == w.camera.y + d * k;
    assert w.camera.y + d == target;
    if 0.0 <= w.sinceTeleport {
      ScaledStepBetween(w.camera.y, d, k);
    }
  }

  // ---------------------------------------------------------------------------
  // Perspective shifts

  /**
   * A trigger while a shift runs changes nothing; otherwise it starts a shift
   * from the current angle with the timer at zero and fires the shift sound.
   */
  lemma ShiftStartsOnlyWhenIdle(w: World, direction: real)
    ensures var w' := ShiftPerspective(w, direction);
      (w.shift.shifting ==> w' == w) &&
      (!w.shift.shifting ==>
        w'.shift == Shift(true, w.camera.angle, direction, 0.0) &&
        w'.sounds == w.sounds + [ShiftSound(direction)] &&
        w'.(shift := w.shift, sounds := w.sounds) == w)
  {
  }

  /** Two triggers in a row start one shift, in the first one's direction */
  lemma SecondTriggerIsDropped(w: World, first: real, second: real)
    ensures ShiftPerspective(ShiftPerspective(w, first), second) == ShiftPerspective(w, first)
  {
  }

  /** The eased progress of a shift never leaves [0, 1] */
  lemma ShiftProgressInUnitInterval(trig: Trig, t: real)
    requires trig.Valid()
    ensures 0.0 <= ShiftProgress(trig, t) <= 1.0
  {
    var c := trig.Cos(trig.pi * t);
    assert -1.0 <= c <= 1.0;
  }

  /**
   * One update of a running shift: the timer grows by 0.02; while the shift
   * goes on the angle lies between the start and the target, and once the
   * timer passes 1 the angle is the target reduced by JavaScript's `%` modulo
   * two pi and the shift ends. Only the angle and the shift change.
   */
  lemma ShiftStaysOnArc(w: World, trig: Trig)
    requires trig.Valid()
    ensures var w' := ShiftingUpdate(w, trig);
      var sh := w.shift;
      w'.shift.timer == sh.timer + ShiftStep &&
      w'.shift.start == sh.start && w'.shift.direction == sh.direction &&
      (w'.shift.shifting <==> sh.shifting && sh.timer + ShiftStep <= 1.0) &&
      (sh.timer + ShiftStep <= 1.0 ==> Between(w'.camera.angle, sh.start, sh.start + sh.direction)) &&
      (sh.timer + ShiftStep > 1.0 ==>
        w'.camera.angle == JsRem(sh.start + sh.direction, trig.TwoPi()) &&
        -trig.TwoPi() < w'.camera.angle < trig.TwoPi()) &&
      w'.(camera := w.camera, shift := w.shift) == w
  {
    var sh := w.shift;
    if sh.timer + ShiftStep <= 1.0 {
      var p := ShiftProgress(trig, sh.timer);
      ShiftProgressInUnitInterval(trig, sh.timer);
      ScaledStepBetween(sh.start, sh.direction, p);
      assert ShiftingUpdate(w, trig).camera.angle == sh.start + sh.direction * p;
    }
  }

  /** A tick during a shift runs only the shift: the player, the input and the sounds stay put */
  lemma ShiftingTickFreezesPlayer(w: World, trig: Trig, ps: seq<Platform>)
    requires trig.Valid() && w.shift.shifting
    ensures var w' := Tick(w, trig, ps);
      w'.player == w.player && w'.input == w.input && w'.sounds == w.sounds &&
      w'.shift == ShiftingUpdate(w, trig).shift &&
      w'.camera.angle == ShiftingUpdate(w, trig).camera.angle
  {
  }

  /** For the first 50 ticks after a trigger the shift runs, its timer at 0.02 per tick */
  lemma {:induction false} ShiftRunsFiftyTicks(w: World, trig: Trig, ps: seq<Platform>, k: nat)
    requires trig.Valid() && w.shift.shifting && w.shift.timer == 0.0
    requires k <= 50
    ensures Ticks(w, trig, ps, k).shift == w.shift.(timer := k as real * ShiftStep)
    ensures Ticks(w, trig, ps, k).player == w.player
  {
    if k > 0 {
      ShiftRunsFiftyTicks(w, trig, ps, k - 1);
      ShiftingTickFreezesPlayer(Ticks(w, trig, ps, k - 1), trig, ps);
    }
  }

  /**
   * In exact arithmetic the 51st tick after a trigger is the first to find the
   * timer above 1: it ends the shift with the angle snapped to the start plus
   * the direction, reduced modulo two pi, and the player never moved.
   */
  lemma ShiftEndsOnTick51(w: World, trig: Trig, ps: seq<Platform>)
    requires trig.Valid() && w.shift.shifting && w.shift.timer == 0.0
    ensures Ticks(w, trig, ps, 50).shift.shifting
    ensures var w' := Ticks(w, trig, ps, 51);
      !w'.shift.shifting &&
      w'.camera.angle == JsRem(w.shift.start + w.shift.direction, trig.TwoPi()) &&
      w'.player == w.player
  {
    ShiftRunsFiftyTicks(w, trig, ps, 50);
    ShiftingTickFreezesPlayer(Ticks(w, trig, ps, 50), trig, ps);
  }

  // ---------------------------------------------------------------------------
  // Kinematics

  /** With no input, friction scales the horizontal speed by exactly 0.7 */
  lemma FrictionDecays(v: real)
    ensures HorizontalVelocity(v, 0) == Friction * v
    ensures Abs(HorizontalVelocity(v, 0)) == Friction * Abs(v)
  {
  }

  /** Input in [-1, 1] cannot push the speed beyond 0.028 / 0.3 */
  lemma SpeedStaysBounded(v: real, movement: int)
    requires -1 <= movement <= 1
    requires Abs(v) <= MaxSpeed
    ensures Abs(HorizontalVelocity(v, movement)) <= MaxSpeed
  {
  }

  /**
   * A jump sets the vertical speed to 0.2 and sounds exactly when the player
   * is grounded with jump held; otherwise nothing changes.
   */
  lemma JumpOnlyFromGround(w: World)
    ensures var w' := HandleJumping(w);
      (w.player.grounded && w.input.jump ==>
        w'.player == w.player.(vVel := JumpVelocity) && w'.sounds == w.sounds + [JumpSound]) &&
      (!(w.player.grounded && w.input.jump) ==> w' == w)
  {
  }

  /**
   * Gravity always lowers the vertical speed: by 0.005 exactly when rising
   * with jump held, by 0.015 otherwise.
   */
  lemma GravityAlwaysPulls(w: World)
    ensures var w' := HandleGravity(w);
      var drop := w.player.vVel - w'.player.vVel;
      w'.player.vVel < w.player.vVel &&
      (drop == LowGravity <==> w.player.vVel > 0.0 && w.input.jump) &&
      (drop == LowGravity || drop == HighGravity) &&
      w'.player.(vVel := w.player.vVel) == w.player && w'.(player := w.player) == w
  {
  }

  // ---------------------------------------------------------------------------
  // Collisions

  /** A platform not overlapping the player across the screen changes nothing */
  lemma ApartPlatformIsIgnored(body: Body, b: Basis, p: Platform)
    requires var v := Project(body, b, p); Abs(v.rightDelta) >= v.widthThreshold
    ensures CollidePlatform(body, b, p) == body
  {
  }

  lemma PushKeepsRight(body: Body, b: Basis, distance: real)
    requires Rotated(b)
    ensures RightOf(PushForward(body, b, distance), b) == RightOf(body, b)
  {
    var r := PushForward(body, b, distance);
    calc {
      RightOf(r, b);
      (body.x + distance * b.forwardX) * b.rightX + (body.z + distance * b.forwardZ) * b.rightZ;
      RightOf(body, b) + distance * (b.forwardX * b.rightX + b.forwardZ * b.rightZ);
      { RotatedBasisIsOrthogonal(b); }
      RightOf(body, b);
    }
  }

  /**
   * A collision moves the player only along the forward axis, by the
   * correction distance: its position on the right axis and its horizontal
   * speed are untouched.
   */
  lemma CollisionMovesAlongForward(body: Body, b: Basis, v: View)
    requires Rotated(b)
    ensures var r := Resolve(body, b, v);
      var c := CorrectionIn(body, v);
      r.x == body.x + c * b.forwardX && r.z == body.z + c * b.forwardZ &&
      RightOf(r, b) == RightOf(body, b) && r.hVel == body.hVel
  {
    var c := CorrectionIn(body, v);
    var contact := ContactIn(body, v);
    if contact == Apart {
      assert c == 0.0;
    } else {
      var landed :=
        if contact == Landing then body.(y := v.platformY + v.heightThreshold, vVel := 0.0, grounded := true)
        else body;
      assert RightOf(landed, b) == RightOf(body, b);
      PushKeepsRight(landed, b, c);
    }
  }

  /**
   * A platform the player overlaps vertically pushes it back: the correction
   * is never positive, strictly negative exactly when the player is inside the
   * front face, and the height, vertical speed and grounded flag stay.
   */
  lemma WallPushesBack(body: Body, b: Basis, v: View)
    requires ContactIn(body, v) == Wall
    ensures var r := Resolve(body, b, v);
      var c := CorrectionIn(body, v);
      c <= 0.0 &&
      (c < 0.0 <==> v.depthDelta < v.lengthThreshold) &&
      r.y == body.y && r.vVel == body.vVel && r.grounded == body.grounded
  {
  }

  /** A platform the player is about to fall into puts it on top, at rest and grounded */
  lemma LandingSnapsOnTop(body: Body, b: Basis, p: Platform)
    requires ContactWith(body, b, p) == Landing
    ensures var r := CollidePlatform(body, b, p);
      r.y == p.y + p.height / 2.0 + 0.5 && r.vVel == 0.0 && r.grounded
  {
  }

  /**
   * Only a landing sets the grounded flag, stops the vertical speed or moves
   * the player vertically.
   */
  lemma OnlyLandingGrounds(body: Body, b: Basis, v: View)
    ensures var r := Resolve(body, b, v);
      var landing := ContactIn(body, v) == Landing;
      (r.grounded ==> body.grounded || landing) &&
      (r.vVel != body.vVel ==> landing && r.vVel == 0.0) &&
      (r.y != body.y ==> landing)
  {
  }

  /**
   * Over a whole scan of the platforms: grounded still implies at rest, the
   * horizontal speed is untouched and, for a rotated basis, so is the player's
   * position on the right axis.
   */
  lemma {:induction false} CollideAllKeepsRest(body: Body, b: Basis, ps: seq<Platform>)
    ensures var r := CollideAll(body, b, ps);
      ((body.grounded ==> body.vVel == 0.0) ==> (r.grounded ==> r.vVel == 0.0)) &&
      r.hVel == body.hVel &&
      (Rotated(b) ==> RightOf(r, b) == RightOf(body, b))
  {
    if ps != [] {
      var before := CollideAll(body, b, ps[..|ps| - 1]);
      CollideAllKeepsRest(body, b, ps[..|ps| - 1]);
      var v := Project(before, b, ps[|ps| - 1]);
      OnlyLandingGrounds(before, b, v);
      if Rotated(b) {
        CollisionMovesAlongForward(before, b, v);
      }
    }
  }

  /**
   * After a tick's movement the grounded player has no vertical speed, so the
   * vertical move leaves its height where the collisions put it; collisions
   * never shift it along the right axis.
   */
  lemma GroundedPlayerStaysOnTop(w: World, ps: seq<Platform>)
    ensures var moved := MoveAlongRight(w.player, w.basis);
      var collided := HandleCollisions(moved, w.basis, ps);
      var w' := ApplyPlayerMovement(w, ps);
      (w'.player.grounded ==> w'.player.vVel == 0.0 && w'.player.y == collided.y) &&
      (Rotated(w.basis) ==> RightOf(w'.player, w.basis) == RightOf(moved, w.basis)) &&
      w'.player.hVel == w.player.hVel
  {
    var b := w.basis;
    var moved := MoveAlongRight(w.player, b);
    var start := moved.(grounded := false);
    var collided := CollideAll(start, b, ps);
    var r := ApplyPlayerMovement(w, ps).player;
    assert r == collided.(y := collided.y + collided.vVel);
    CollideAllKeepsRest(start, b, ps);
    SameGroundPosition(start, moved, b);
    SameGroundPosition(r, collided, b);
  }

  /** Two bodies at the same ground position have the same coordinate on the right axis */
  lemma SameGroundPosition(p: Body, q: Body, b: Basis)
    requires p.x == q.x && p.z == q.z
    ensures RightOf(p, b) == RightOf(q, b)
  {
  }

  // ---------------------------------------------------------------------------
  // Safety teleport

  /**
   * Below height -20 the player goes back to the origin at rest, the teleport
   * timer restarts and the kill sound fires once; otherwise nothing changes.
   */
  lemma FallTeleportsToOrigin(w: World)
    ensures var w' := CheckSafetyTeleport(w);
      (w.player.y < -20.0 ==>
        w'.player == Body(0.0, 0.0, 0.0, 0.0, 0.0, w.player.grounded) &&
        w'.sinceTeleport == 0.0 && w'.sounds == w.sounds + [KillSound] &&
        w'.(player := w.player, sinceTeleport := w.sinceTeleport, sounds := w.sounds) == w) &&
      (w.player.y >= -20.0 ==> w' == w)
  {
  }

  /**
   * The teleport target lies directly above the shipped level's first
   * platform: in line with it across and along the screen whatever the
   * camera angle, and higher than its top.
   */
  lemma SpawnIsAboveFirstPlatform(trig: Trig, angle: real)
    ensures var p := Level[0];
      var v := Project(Body(0.0, 0.0, 0.0, 0.0, 0.0, false), BasisOf(trig, angle), p);
      Abs(v.rightDelta) < v.widthThreshold && Abs(v.depthDelta) <= v.lengthThreshold &&
      p.y + v.heightThreshold < 0.0
  {
  }

  // ---------------------------------------------------------------------------
  // The tick

  /** Key events keep the input flags in range and start at most a shift */
  lemma InputChangeKeepsInv(w: World, trig: Trig, key: string, pressed: bool)
    requires Inv(w)
    ensures Inv(OnInputChange(w, trig, key, pressed))
  {
  }

  /**
   * Every tick keeps the invariant: grounded means at rest, the horizontal
   * speed stays within 0.028 / 0.3, a running shift's timer stays in [0, 1]
   * and the basis stays rotated.
   */
  lemma TickKeepsInv(w: World, trig: Trig, ps: seq<Platform>)
    requires trig.Valid() && Inv(w)
    ensures Inv(Tick(w, trig, ps))
  {
    var w1 := UpdateCamera(UpdateTimers(w), trig);
    if !w1.shift.shifting {
      var w2 := PreparePlayerMovement(w1);
      SpeedStaysBounded(w1.player.hVel, w1.input.left + w1.input.right);
      GroundedPlayerStaysOnTop(w2, ps);
    }
  }

  /** A player standing on a platform's top and pulled down by one tick of gravity lands back in place */
  lemma StandingOnTop(body: Body, b: Basis, v: View)
    requires body.vVel == -HighGravity && Margin <= v.heightThreshold
    requires body.y == v.platformY + v.heightThreshold
    requires Abs(v.rightDelta) < v.widthThreshold && Abs(v.depthDelta) <= v.lengthThreshold
    ensures Resolve(body, b, v) == body.(vVel := 0.0, grounded := true)
  {
    assert ContactIn(body, v) == Landing;
    assert CorrectionIn(body, v) == 0.0;
  }

  /**
   * One tick of a player standing still on top of the only platform, with no
   * input held: it stays exactly where it is, grounded and at rest, and the
   * shift, the input and the camera angle stay as they were.
   */
  lemma RestingPlayerStaysPut(w: World, trig: Trig, p: Platform)
    requires trig.Valid()
    requires !w.shift.shifting && w.input == Input(0, 0, false)
    requires w.player.hVel == 0.0 && w.player.vVel == 0.0
    requires 0.0 <= p.height && DeathHeight <= p.y
    requires w.player.y == p.y + p.height / 2.0 + Margin
    requires var v := Project(w.player, BasisOf(trig, w.camera.angle), p);
      Abs(v.rightDelta) < v.widthThreshold && Abs(v.depthDelta) <= v.lengthThreshold
    ensures var w' := Tick(w, trig, [p]);
      w'.player == w.player.(grounded := true) &&
      w'.shift == w.shift && w'.input == w.input && w'.camera.angle == w.camera.angle
  {
    var b := BasisOf(trig, w.camera.angle);
    var w1 := UpdateCamera(UpdateTimers(w), trig);
    var w2 := PreparePlayerMovement(w1);
    assert w2.basis == b && !w2.shift.shifting;
    assert w2.player == w.player.(vVel := -HighGravity);
    var w3 := ApplyPlayerMovement(w2, [p]);
    assert w3.player == w.player.(grounded := true) by {
      ProjectionIgnoresHeight(w2.player, w.player, b, p);
      RestingLanding(w2.player, b, p);
    }
    assert CheckSafetyTeleport(w3) == w3;
  }

  /**
   * A player standing still on top of the only platform, with no input held,
   * stays exactly where it is, grounded and at rest, for any number of ticks.
   */
  lemma {:induction false} RestingPlayerStaysPutForever(w: World, trig: Trig, p: Platform, n: nat)
    requires trig.Valid()
    requires !w.shift.shifting && w.input == Input(0, 0, false)
    requires w.player.hVel == 0.0 && w.player.vVel == 0.0
    requires 0.0 <= p.height && DeathHeight <= p.y
    requires w.player.y == p.y + p.height / 2.0 + Margin
    requires var v := Project(w.player, BasisOf(trig, w.camera.angle), p);
      Abs(v.rightDelta) < v.widthThreshold && Abs(v.depthDelta) <= v.lengthThreshold
    requires 1 <= n
    ensures var w' := Ticks(w, trig, [p], n);
      w'.player == w.player.(grounded := true) &&
      w'.shift == w.shift && w'.input == w.input && w'.camera.angle == w.camera.angle
  {
    if n == 1 {
      RestingPlayerStaysPut(w, trig, p);
    } else {
      RestingPlayerStaysPutForever(w, trig, p, n - 1);
      var w' := Ticks(w, trig, [p], n - 1);
      ProjectionIgnoresHeight(w'.player, w.player, BasisOf(trig, w.camera.angle), p);
      RestingPlayerStaysPut(w', trig, p);
    }
  }

  /** The collision step of a resting player's tick puts it back where it stood */
  lemma RestingLanding(body: Body, b: Basis, p: Platform)
    requires body.hVel == 0.0 && body.vVel == -HighGravity && 0.0 <= p.height
    requires body.y == p.y + p.height / 2.0 + Margin
    requires var v := Project(body, b, p);
      Abs(v.rightDelta) < v.widthThreshold && Abs(v.depthDelta) <= v.lengthThreshold
    ensures var collided := HandleCollisions(MoveAlongRight(body, b), b, [p]);
      collided.(y := collided.y + collided.vVel) == body.(vVel := 0.0, grounded := true)
  {
    var moved := MoveAlongRight(body, b);
    assert moved == body;
    var start := body.(grounded := false);
    ProjectionIgnoresHeight(start, body, b, p);
    StandingOnTop(start, b, Project(start, b, p));
    CollideOne(start, b, p);
  }

  /** The view of a platform depends on the player's ground position only */
  lemma ProjectionIgnoresHeight(p1: Body, p2: Body, b: Basis, p: Platform)
    requires p1.x == p2.x && p1.z == p2.z
    ensures Project(p1, b, p) == Project(p2, b, p)
  {
  }

  lemma CollideOne(body: Body, b: Basis, p: Platform)
    ensures CollideAll(body, b, [p]) == CollidePlatform(body, b, p)
  {
    assert [p][..0] == [];
  }
}
