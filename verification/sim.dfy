/**
 * The per-tick gameplay simulation of the platformer, as a pure state machine.
 *
 * The game keeps all its state in process-wide variables; here that state is
 * one `World` value and every routine of the game loop is a function from the
 * old `World` to the new one. The class `Game.Game` updates the same state in
 * place and is proved to agree with these functions.
 *
 * Numbers are exact reals: the model says nothing about floating-point
 * rounding, and the tick counts it proves hold in exact arithmetic.
 */
module Sim {
  import opened JsMath

  // ---------------------------------------------------------------------------
  // Constants of the game loop

  /** Added to the time since the last teleport on every tick */
  const TeleportTimerStep: real := 0.01
  /** Fraction of the remaining horizontal distance the camera covers per tick */
  const CameraEasing: real := 0.1
  /** The camera aims this many camera sizes above the player */
  const CameraLift: real := 0.2
  /** Progress of a perspective shift per tick */
  const ShiftStep: real := 0.02
  /** Horizontal acceleration per unit of movement input */
  const Acceleration: real := 0.04
  /** Horizontal velocity is multiplied by this on every tick */
  const Friction: real := 0.7
  /** Vertical velocity given by a jump */
  const JumpVelocity: real := 0.2
  /** Gravity while rising with jump held */
  const LowGravity: real := 0.005
  /** Gravity otherwise */
  const HighGravity: real := 0.015
  /** Half the player's unit cube, added to every platform half-extent */
  const Margin: real := 0.5
  /** Falling below this height teleports the player back to the origin */
  const DeathHeight: real := -20.0
  /** The fixed point of friction under full input: 0.028 / 0.3 */
  const MaxSpeed: real := Acceleration * Friction / (1.0 - Friction)
  /** Initial zoom of the camera */
  const InitialCameraSize: real := 15.0

  const JumpKey: string := " "
  const LeftKey: string := "ArrowLeft"
  const RightKey: string := "ArrowRight"
  const ShiftLeftKey: string := "a"
  const ShiftRightKey: string := "d"

  // ---------------------------------------------------------------------------
  // State

  /** The key flags: left contributes -1 or 0, right 0 or 1 */
  datatype Input = Input(left: int, right: int, jump: bool)

  /** The player: position, scalar horizontal speed along the camera's right axis, vertical speed */
  datatype Body = Body(x: real, y: real, z: real, hVel: real, vVel: real, grounded: bool)

  datatype Camera = Camera(x: real, y: real, z: real, angle: real, size: real)

  /** The camera's right and forward axes in the world's XZ plane */
  datatype Basis = Basis(rightX: real, rightZ: real, forwardX: real, forwardZ: real)

  /** The perspective-shift animation */
  datatype Shift = Shift(shifting: bool, start: real, direction: real, timer: real)

  /** Sound effects the game fires; the audio itself is not modelled */
  datatype Sound = JumpSound | ShiftSound(direction: real) | KillSound

  /** A level box: centre, extents, drawing angle and colour index */
  datatype Platform = Platform(x: real, y: real, z: real, width: real, height: real, length: real,
                               angle: real, colorId: nat)

  datatype World = World(input: Input, player: Body, camera: Camera, basis: Basis, shift: Shift,
                         sinceTeleport: real, sounds: seq<Sound>)

  /** The level shipped with the game */
  const Level: seq<Platform> := [
    Platform(0.0, -2.0, 0.0, 3.0, 1.0, 3.0, 0.0, 2),
    Platform(5.0, -1.0, 5.0, 1.0, 2.0, 3.0, 0.0, 3),
    Platform(10.0, -2.0, 10.0, 3.0, 8.0, 3.0, 0.0, 4)
  ]

  /** Forward is right turned a quarter: (-rightZ, rightX) */
  predicate Rotated(b: Basis) {
    b.forwardX == -b.rightZ && b.forwardZ == b.rightX
  }

  /** A point's coordinate along the camera's right axis */
  function RightOf(body: Body, b: Basis): real {
    body.x * b.rightX + body.z * b.rightZ
  }

  /** What every tick keeps true */
  ghost predicate Inv(w: World) {
    (w.input.left == -1 || w.input.left == 0) &&
    (w.input.right == 0 || w.input.right == 1) &&
    Rotated(w.basis) &&
    (w.player.grounded ==> w.player.vVel == 0.0) &&
    Abs(w.player.hVel) <= MaxSpeed &&
    (w.shift.shifting ==> 0.0 <= w.shift.timer <= 1.0) &&
    0.0 <= w.sinceTeleport
  }

  // ---------------------------------------------------------------------------
  // Camera

  /** right = (cos a, sin a), forward = (-sin a, cos a) */
  function BasisOf(trig: Trig, angle: real): (b: Basis)
    ensures Rotated(b)
    ensures b.rightX * b.forwardX + b.rightZ * b.forwardZ == 0.0
  {
    var rx := trig.Cos(angle);
    var rz := trig.Sin(angle);
    Basis(rx, rz, -rz, rx)
  }

  /** The game's starting state */
  function Initial(trig: Trig): (w: World)
    ensures Inv(w)
  {
    World(Input(0, 0, false), Body(0.0, 0.0, 0.0, 0.0, 0.0, false),
          Camera(0.0, 0.0, 0.0, 0.0, InitialCameraSize), BasisOf(trig, 0.0),
          Shift(false, 0.0, 0.0, 0.0), 0.0, [])
  }

  function UpdateTimers(w: World): World {
    w.(sinceTeleport := w.sinceTeleport + TeleportTimerStep)
  }

  function UpdateCamera(w: World, trig: Trig): World {
    var c := w.camera;
    var targetY := w.player.y + CameraLift * c.size;
    w.(basis := BasisOf(trig, c.angle),
       camera := c.(x := c.x + (w.player.x - c.x) * CameraEasing,
                    z := c.z + (w.player.z - c.z) * CameraEasing,
                    y := c.y + (targetY - c.y) * Min(1.0, w.sinceTeleport)))
  }

  // ---------------------------------------------------------------------------
  // Input and perspective shifts

  function OnInputChange(w: World, trig: Trig, key: string, pressed: bool): World {
    var i := w.input;
    var jump := if key == JumpKey then pressed else i.jump;
    var left := if key == LeftKey then (if pressed then -1 else 0) else i.left;
    var right := if key == RightKey then (if pressed then 1 else 0) else i.right;
    var w' := w.(input := Input(left, right, jump));
    if pressed && key == ShiftLeftKey then ShiftPerspective(w', -trig.HalfPi())
    else if pressed && key == ShiftRightKey then ShiftPerspective(w', trig.HalfPi())
    else w'
  }

  function ShiftPerspective(w: World, direction: real): World {
    if w.shift.shifting then w
    else w.(shift := Shift(true, w.camera.angle, direction, 0.0),
            sounds := w.sounds + [ShiftSound(direction)])
  }

  /** The eased progress (1 - cos(PI t)) / 2 of a shift at time t */
  function ShiftProgress(trig: Trig, t: real): real {
    -(trig.Cos(trig.pi * t) - 1.0) / 2.0
  }

  function ShiftingUpdate(w: World, trig: Trig): World
    requires trig.Valid()
  {
    var sh := w.shift;
    var angle := sh.start + sh.direction * ShiftProgress(trig, sh.timer);
    var timer := sh.timer + ShiftStep;
    if timer > 1.0 then
      w.(camera := w.camera.(angle := JsRem(sh.start + sh.direction, trig.TwoPi())),
         shift := sh.(shifting := false, timer := timer))
    else
      w.(camera := w.camera.(angle := angle), shift := sh.(timer := timer))
  }

  // ---------------------------------------------------------------------------
  // Player kinematics

  function HorizontalVelocity(v: real, movement: int): real {
    (v + movement as real * Acceleration) * Friction
  }

  /** The gravity subtracted for a given vertical velocity and jump flag */
  function Gravity(vVel: real, jumping: bool): real {
    if vVel > 0.0 && jumping then LowGravity else HighGravity
  }

  function HandleJumping(w: World): World {
    if w.player.grounded && w.input.jump then
      w.(player := w.player.(vVel := JumpVelocity), sounds := w.sounds + [JumpSound])
    else w
  }

  function HandleGravity(w: World): World {
    w.(player := w.player.(vVel := w.player.vVel - Gravity(w.player.vVel, w.input.jump)))
  }

  function PreparePlayerMovement(w: World): World {
    var movement := w.input.left + w.input.right;
    var w' := w.(player := w.player.(hVel := HorizontalVelocity(w.player.hVel, movement)));
    HandleGravity(HandleJumping(w'))
  }

  // ---------------------------------------------------------------------------
  // Collision with one platform, in the camera's frame

  /**
   * A platform as the collision test sees it from the player: the three
   * distance thresholds (half the projected extents plus half the player's
   * unit cube) and the offsets from the player to the platform's centre.
   */
  datatype View = View(widthThreshold: real, heightThreshold: real, lengthThreshold: real,
                       rightDelta: real, depthDelta: real, platformY: real)

  function Project(body: Body, b: Basis, p: Platform): View {
    var projectedWidth := Abs(p.width * b.rightX) + Abs(p.length * b.rightZ);
    var projectedLength := Abs(p.length * b.rightX) + Abs(p.width * b.rightZ);
    View(projectedWidth / 2.0 + Margin, p.height / 2.0 + Margin, projectedLength / 2.0 + Margin,
         (p.x - body.x) * b.rightX + (p.z - body.z) * b.rightZ,
         (p.x - body.x) * b.forwardX + (p.z - body.z) * b.forwardZ,
         p.y)
  }

  /** Which branch of the collision test a platform takes */
  datatype Contact =
    | Apart    // not overlapping across the screen: nothing happens
    | Wall     // overlapping vertically now: pushed back along the view direction
    | Landing  // will overlap vertically after this tick's fall: snapped on top
    | Clear    // overlapping across the screen only: nothing happens

  function ContactIn(body: Body, v: View): Contact {
    if Abs(v.rightDelta) >= v.widthThreshold then Apart
    else if Abs(body.y - v.platformY) < v.heightThreshold then Wall
    else if Abs(body.y + body.vVel - v.platformY) < v.heightThreshold then Landing
    else Clear
  }

  /** The distance the player is moved along the forward axis */
  function CorrectionIn(body: Body, v: View): real {
    match ContactIn(body, v)
    case Wall => if v.depthDelta < v.lengthThreshold then v.depthDelta - v.lengthThreshold else 0.0
    case Landing => if Abs(v.depthDelta) > v.lengthThreshold then v.depthDelta - v.lengthThreshold + 1.0 else 0.0
    case _ => 0.0
  }

  function PushForward(body: Body, b: Basis, distance: real): Body {
    body.(x := body.x + distance * b.forwardX, z := body.z + distance * b.forwardZ)
  }

  /** The collision response to a platform seen as `v` */
  function Resolve(body: Body, b: Basis, v: View): Body {
    var contact := ContactIn(body, v);
    if contact == Apart then body
    else
      var landed :=
        if contact == Landing then body.(y := v.platformY + v.heightThreshold, vVel := 0.0, grounded := true)
        else body;
      PushForward(landed, b, CorrectionIn(body, v))
  }

  function ContactWith(body: Body, b: Basis, p: Platform): Contact {
    ContactIn(body, Project(body, b, p))
  }

  function CollidePlatform(body: Body, b: Basis, p: Platform): Body {
    Resolve(body, b, Project(body, b, p))
  }

  /** The platforms are visited in order, each seeing the previous ones' corrections */
  function CollideAll(body: Body, b: Basis, ps: seq<Platform>): Body
    decreases |ps|
  {
    if ps == [] then body
    else CollidePlatform(CollideAll(body, b, ps[..|ps| - 1]), b, ps[|ps| - 1])
  }

  function HandleCollisions(body: Body, b: Basis, ps: seq<Platform>): Body {
    CollideAll(body.(grounded := false), b, ps)
  }

  function MoveAlongRight(body: Body, b: Basis): Body {
    body.(x := body.x + body.hVel * b.rightX, z := body.z + body.hVel * b.rightZ)
  }

  /** Horizontal move, then collisions, then the vertical move */
  function ApplyPlayerMovement(w: World, ps: seq<Platform>): World {
    var collided := HandleCollisions(MoveAlongRight(w.player, w.basis), w.basis, ps);
    w.(player := collided.(y := collided.y + collided.vVel))
  }

  // ---------------------------------------------------------------------------
  // Safety teleport and the tick

  function TeleportPlayer(w: World, x: real, y: real, z: real): World {
    w.(player := w.player.(x := x, y := y, z := z, hVel := 0.0, vVel := 0.0),
       sinceTeleport := 0.0, sounds := w.sounds + [KillSound])
  }

  function CheckSafetyTeleport(w: World): World {
    if w.player.y < DeathHeight then TeleportPlayer(w, 0.0, 0.0, 0.0) else w
  }

  /** One run of the game loop, drawing aside */
  function Tick(w: World, trig: Trig, ps: seq<Platform>): World
    requires trig.Valid()
  {
    var w' := UpdateCamera(UpdateTimers(w), trig);
    if w'.shift.shifting then ShiftingUpdate(w', trig)
    else CheckSafetyTeleport(ApplyPlayerMovement(PreparePlayerMovement(w'), ps))
  }

  /** `n` ticks in a row with no input in between */
  function Ticks(w: World, trig: Trig, ps: seq<Platform>, n: nat): World
    requires trig.Valid()
  {
    if n == 0 then w else Tick(Ticks(w, trig, ps, n - 1), trig, ps)
  }
}
