# fz3kb: the perspective-shift platformer, modelled in Dafny

fz3kb is a small browser platformer. A cube walks, jumps and lands on box
platforms that are seen from the side. The `a` and `d` keys turn the side
camera a quarter turn around the vertical axis. Collisions are worked out in
the turned screen plane: two platforms that look touching from the current
side can be walked between. A timer runs the game loop once every 15 ms.

This project models two parts:

* **The game loop of `script.js`** (input handling, camera easing, the eased
  perspective shift, horizontal and vertical kinematics, the per-platform
  collision rules and the safety teleport).
  * `Sim` (`sim.dfy`) states each routine as a pure function over a `World`
    value.
  * `Game` (`game.dfy`) is the game's mutable global state as a class. Each
    routine is a method that updates the fields in place, as the script does,
    and is proved to leave exactly the state the matching `Sim` function
    computes. The collision pass is a loop over the platforms with its
    invariant.
  * `SimProperties` (`sim_properties.dfy`) proves what the loop guarantees:
    * a shift runs a fixed number of ticks and ends on the target angle
      reduced by JavaScript's `%`;
    * while a shift runs the player is frozen;
    * a grounded player is at rest;
    * collisions move the player along the forward axis only;
    * a landing puts the player on top of the platform;
    * the horizontal speed stays bounded;
    * a player resting on top of the only platform of a level stays put
      for any number of ticks.
  * `JsMath` (`jsmath.dfy`) holds the JavaScript number semantics the script
    relies on: `Math.abs`, `Math.min`, and `%` with its truncated quotient.
    `sin`, `cos` and `PI` are an abstract `Trig` record.
* **`escapeHTML` and the size report of `debug/debug.js`** (`HtmlEscape`,
  `escape.dfy`).
  * `escapeHTML` is modelled as the chain of five global replacements, and
    proved equal to escaping each character on its own.
  * From that it follows that:
    * the output holds none of `<`, `>`, `"`, `'`;
    * every `&` in the output begins one of the five references;
    * the output length is exact;
    * plain text comes back unchanged;
    * decoding the references left to right gives the input back.
  * The 69-character page wrapper and the total it adds to the minified
    script's length are modelled too.

Numbers are exact reals. JavaScript doubles, and any rounding they do, are
not modelled.

## Model

| member | source | states |
|---|---|---|
| JsMath.Abs | script.js:3 | `Math.abs`: the result is non-negative and is `x` or `-x` |
| JsMath.Min | script.js:110 | `Math.min(1, t)`: the result is at most both arguments and is one of them |
| JsMath.Trunc | script.js:129 | The quotient truncation JavaScript's `%` uses: toward zero, within one of the exact quotient |
| JsMath.JsRem | script.js:129 | `(shiftStart + shiftDirection) % TWO_PI`: the dividend minus the result is a whole multiple of the modulus. The result lies strictly between -2π and 2π and has the sign of the dividend, which together pin JavaScript's `%`. A dividend already in that range is unchanged |
| Sim.BasisOf | script.js:97-101 | The camera's right and forward axes are a quarter turn apart (forward = (-rightZ, rightX)), so they are perpendicular |
| Sim.Initial | script.js:52-75 | The starting globals satisfy the loop invariant: input flags in range, grounded implies at rest, speed within bound, rotated basis, teleport timer non-negative |
| SimProperties.RotatedBasisIsOrthogonal | script.js:98-101 | A rotated basis has perpendicular axes of equal length |
| SimProperties.CameraEasesTowardPlayer | script.js:97-111 | The horizontal gap to the player shrinks to 0.9 of itself. Vertically the camera lands between its old height and its target (player height + 0.2·size), and reaches the target once the teleport timer is at least 1. Only the camera and the basis change |
| SimProperties.ShiftStartsOnlyWhenIdle | script.js:113-121 | A trigger during a shift changes nothing. Otherwise it records the current angle as start, the direction and timer 0, sets shifting, and fires one shift sound; nothing else changes |
| SimProperties.SecondTriggerIsDropped | script.js:113-114 | Two triggers in a row act as the first one alone |
| SimProperties.ShiftProgressInUnitInterval | script.js:124 | The eased progress `-(cos(π·t) - 1) / 2` lies in [0, 1] |
| SimProperties.ShiftStaysOnArc | script.js:123-132 | One shift update advances the timer by 0.02. While the timer stays at most 1 the angle lies between the start and start + direction. Once the timer passes 1 the angle is `(start + direction) % 2π` (inside (-2π, 2π)) and the shift ends. Only the camera and the shift change |
| SimProperties.ShiftingTickFreezesPlayer | script.js:82-88 | A tick during a shift runs the shift update only: the player, the input and the sounds are unchanged |
| SimProperties.ShiftRunsFiftyTicks | script.js:123-132 | For k ≤ 50 ticks after a trigger the shift is still running, its timer is 0.02·k and the player has not moved |
| SimProperties.ShiftEndsOnTick51 | script.js:123-132 | After 50 ticks the shift still runs. The 51st tick ends it with the angle at `(start + direction) % 2π`, the player unmoved |
| SimProperties.FrictionDecays | script.js:134-137 | With no input the horizontal speed is multiplied by exactly 0.7 each tick |
| SimProperties.SpeedStaysBounded | script.js:134-137 | With input in [-1, 1] the horizontal speed never exceeds 0.028 / 0.3 in magnitude if it did not before |
| SimProperties.JumpOnlyFromGround | script.js:143-148 | The jump sets the vertical speed to 0.2 and plays the jump sound exactly when grounded with jump held; otherwise nothing changes |
| SimProperties.GravityAlwaysPulls | script.js:150-153 | Gravity always lowers the vertical speed: by 0.005 exactly when rising with jump held, by 0.015 otherwise; nothing else changes |
| SimProperties.ApartPlatformIsIgnored | script.js:184 | A platform whose screen-plane offset along the right axis is not below the width threshold leaves the player unchanged |
| SimProperties.PushKeepsRight | script.js:211-212 | A push along the forward axis does not move the player along the right axis |
| SimProperties.CollisionMovesAlongForward | script.js:184-213 | A collision moves the player's ground position by exactly the correction distance along the forward axis. Its right-axis coordinate and horizontal speed stay unchanged |
| SimProperties.WallPushesBack | script.js:194-199 | For a vertically overlapping platform the correction is ≤ 0, and strictly negative exactly when the player is inside the front face. Height, vertical speed and the grounded flag are untouched |
| SimProperties.LandingSnapsOnTop | script.js:200-204 | A landing puts the player at platform y + height/2 + 0.5, with vertical speed 0 and grounded |
| SimProperties.OnlyLandingGrounds | script.js:184-213 | Only a landing can set the grounded flag, change the vertical speed (to 0) or change the height |
| SimProperties.CollideAllKeepsRest | script.js:166-169 | Scanning all platforms in order preserves "grounded implies vertical speed 0". It keeps the horizontal speed and, for a rotated basis, the right-axis coordinate |
| SimProperties.CollideOne | script.js:168 | Scanning a one-platform level is that platform's collision |
| SimProperties.GroundedPlayerStaysOnTop | script.js:155-164 | After the movement step a grounded player has vertical speed 0, so the vertical move leaves it at the height the collisions set. The right-axis coordinate is the one the horizontal move gave, and the horizontal speed is unchanged |
| SimProperties.SameGroundPosition | script.js:156-157 | Two bodies at the same ground position share their right-axis coordinate |
| SimProperties.ProjectionIgnoresHeight | script.js:172-187 | The thresholds and the offsets of a platform depend on the player's ground position only |
| SimProperties.FallTeleportsToOrigin | script.js:216-230 | Below height -20 the player is put at the origin with both speeds 0. The teleport timer restarts and one kill sound plays; nothing else changes. At or above -20 nothing changes |
| SimProperties.InputChangeKeepsInv | script.js:21-29 | Key events keep the loop invariant |
| SimProperties.TickKeepsInv | script.js:78-91 | Every tick keeps the loop invariant: input flags in range, rotated basis, grounded implies at rest, speed within 0.028 / 0.3, a running shift's timer in [0, 1], teleport timer non-negative |
| SimProperties.StandingOnTop | script.js:184-213 | A player on a platform's top, pulled down by one tick of gravity and inside its footprint, lands back at the same height, at rest and grounded |
| SimProperties.RestingLanding | script.js:155-164 | The movement step of a resting player standing on a platform puts it back where it stood, grounded |
| SimProperties.RestingPlayerStaysPut | script.js:78-91 | One tick of a player at rest on top of the only platform, with no key held: it stays at the same place, grounded. The shift, the input and the camera angle are unchanged, so the lemma applies again to the next tick |
| SimProperties.RestingPlayerStaysPutForever | script.js:78-91 | The same player stays at the same place, grounded, after any number n ≥ 1 of ticks, proved by induction over the ticks |
| SimProperties.SpawnIsAboveFirstPlatform | script.js:45 | Whatever the camera angle, the teleport target (the origin, script.js:218) lies above the shipped level's first platform and in line with it across and along the screen |
| Game.Game.constructor | script.js:52-75 | The object starts in the initial state (all zeros, camera size 15, basis of angle 0), which satisfies the invariant |
| Game.Game.OnInputChange | script.js:21-29 | Sets or clears the jump, left and right inputs for their keys. A press of `a` or `d` triggers a shift of ∓π/2. The invariant is kept |
| Game.Game.GameLoop | script.js:78-91 | Timers, then camera, then either the shift update or movement and the safety teleport. The new state is `Tick` of the old one, so every `SimProperties` result applies, and the invariant is kept |
| Game.Game.UpdateTimers | script.js:93-95 | The teleport timer grows by 0.01 |
| Game.Game.UpdateCamera | script.js:97-111 | The basis becomes that of the camera angle and the camera eases toward its targets (see `CameraEasesTowardPlayer`) |
| Game.Game.ShiftPerspective | script.js:113-121 | Starts a shift unless one runs (see `ShiftStartsOnlyWhenIdle`) |
| Game.Game.ShiftingUpdate | script.js:123-132 | Moves the angle along the eased arc and ends the shift once the timer passes 1 (see `ShiftStaysOnArc`) |
| Game.Game.PreparePlayerMovement | script.js:134-141 | Acceleration and friction, then the jump, then gravity |
| Game.Game.HandleJumping | script.js:143-148 | See `JumpOnlyFromGround` |
| Game.Game.HandleGravity | script.js:150-153 | See `GravityAlwaysPulls` |
| Game.Game.ApplyPlayerMovement | script.js:155-164 | Horizontal move along the right axis, collisions, then the vertical move |
| Game.Game.HandleCollisions | script.js:166-169 | Clears the grounded flag, then resolves every platform in order, each seeing the previous corrections. The loop keeps "grounded implies vertical speed 0", and only the player changes |
| Game.Game.HandlePlatformCollision | script.js:171-214 | One platform's resolution, in the screen plane of the camera: an apart platform is ignored, a wall pushes back, a landing snaps on top. Only the player changes |
| Game.Game.CheckSafetyTeleport | script.js:216-220 | See `FallTeleportsToOrigin` |
| Game.Game.TeleportPlayer | script.js:222-230 | Puts the player at the given point with both speeds 0, restarts the teleport timer and plays the kill sound |
| HtmlEscape.ReplaceAll | debug/debug.js:41 | `s.replace(/c/g, rep)`: every output character comes from the input (and is not `c`) or from the replacement. A string without `c` is unchanged |
| HtmlEscape.ReplaceAllAppend | debug/debug.js:41-45 | A global one-character replacement distributes over concatenation |
| HtmlEscape.ReplaceAllSingle | debug/debug.js:41-45 | A one-character string is replaced whole or kept |
| HtmlEscape.EntityOf | debug/debug.js:41-45 | The five special characters map to a reference of at least 4 characters that starts with `&` and holds no other `&`; every other character maps to itself |
| HtmlEscape.EscapeAppend | debug/debug.js:39-46 | `escapeHTML` distributes over concatenation |
| HtmlEscape.EscapeOneChar | debug/debug.js:39-46 | On one character the chain gives that character's reference. `&` is replaced first, so no later `&` is re-escaped |
| HtmlEscape.EscapeIsPerCharacter | debug/debug.js:39-46 | The five chained replacements equal escaping each character on its own, in order |
| HtmlEscape.PlainTextUnchanged | debug/debug.js:39-46 | A string with none of `&<>"'` comes back unchanged |
| HtmlEscape.EscapeEachHasNoMarkup | debug/debug.js:41-45 | No reference contains `<`, `>`, `"` or `'` |
| HtmlEscape.NoMarkupCharacters | debug/debug.js:39-46 | The escaped text contains no `<`, `>`, `"` or `'` |
| HtmlEscape.EscapeEachLength | debug/debug.js:41-45 | The per-character map's length is the input's length plus 4 per `&`, 3 per `<` and `>`, 5 per `"` and 4 per `'` |
| HtmlEscape.EscapeLength | debug/debug.js:39-46 | The escaped text has exactly that length |
| HtmlEscape.UnescapeReference | debug/debug.js:41-45 | Each reference decodes back to its character, and decoding resumes right after it |
| HtmlEscape.UnescapeEntity | debug/debug.js:41-45 | The same for any character's output, reference or not |
| HtmlEscape.UnescapeEscapeEach | debug/debug.js:41-45 | Decoding the per-character map gives the input back |
| HtmlEscape.EscapeRoundTrip | debug/debug.js:39-46 | Decoding the five references left to right inverts `escapeHTML` |
| HtmlEscape.ReferenceStartsReference | debug/debug.js:41-45 | A special character's reference, followed by anything, starts with one of the five references |
| HtmlEscape.EscapeEachAmpersands | debug/debug.js:41-45 | Every `&` in the per-character map begins one of the five references |
| HtmlEscape.AmpersandsStartReferences | debug/debug.js:39-46 | Every `&` in the escaped text begins one of the five references, so no stray `&` is left |
| HtmlEscape.BoilerplateLength | debug/debug.js:35-37 | The page wrapper is 69 characters long |
| HtmlEscape.TotalSize | debug/debug.js:31 | The reported total is the minified script's length plus 69. That is the length of the page with the script as the content of its `<script>` element, which spans characters 52-60 of the wrapper |

## Left out

- Drawing (`draw` and its helpers, script.js:232-327) is left out: it only reads the state and paints the canvas.
- Audio synthesis (script.js:329-366) is left out; each `play…Sound` call is recorded as an entry in the `sounds` log instead.
- The DOM wiring (`document.onkeydown`/`onkeyup`, `setInterval`) is left out. Key events and ticks are the methods `OnInputChange` and `GameLoop`, called by whoever drives the object.
- `Math.sin`, `Math.cos` and `Math.PI` are an abstract `Trig` record given to the constructor. The only facts assumed about it are π > 0 and sin, cos ∈ [-1, 1], so no result depends on particular trigonometric values.
- Doubles are exact reals, so rounding is not modelled.
- SimProperties.ShiftEndsOnTick51: in exact arithmetic the timer is exactly 1 after 50 updates, which is not above 1, so the script ends the shift on the 51st. In doubles, fifty additions of 0.02 exceed 1, so the shift ends one update earlier. Rounding is not modelled.
- The camera axes are undefined until the first tick runs `updateCamera`; the model starts them at the axes of angle 0, and the first tick overwrites them.
- The script's globals are grouped into record-valued fields named after their prefixes (`player`, `camera`, `basis`, `shift`, `input`). Each assignment to a global updates one component of its group.
- Game.Game.TeleportPlayer: `playerGrounded` is left as it was, exactly as the script leaves it.
- `platforms` (script.js:44-48) is given to the constructor; the shipped level is the constant `Sim.Level`. Only its first platform has a lemma (`SpawnIsAboveFirstPlatform`). The colour table and each platform's `angle` and colour fields matter only to drawing.
- debug/debug.js:1-33 is left out: the `fetch`, the Terser minification, highlight.js and the `innerHTML` assignments are calls into code outside the model. The formatting of the size message is left out too.
- HtmlEscape.TotalSize counts characters, while JavaScript's `.length` counts UTF-16 code units. The two differ for characters outside the Basic Multilingual Plane; the wrapper itself is ASCII.
- HtmlEscape.UnescapeEscapeEach: the decoder `UnescapeHtml` is the partner that states the round trip. It is not part of the debug page.
