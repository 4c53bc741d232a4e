# Turret enemy controller, modelled in Dafny

This project models the turret enemy of a 2D action game (the C#
`TurretEnemyController` MonoBehaviour). The turret is a three-state machine:

- `Sleep`: it waits until the player is closer than `WakeupRadius`.
- `Default`: it holds still, counts down its attack cooldown and, once the
  cooldown is spent, fires a projectile when a circle cast reaches the player.
- `Hitstun`: entered whenever a player bullet hits it; it counts down a stun
  timer and then returns to `Default`.

Each hit also costs health and adds knockback to the target velocity. The
turret asks to be destroyed at the end of any frame in which its health is
below zero.

Files:

- `geometry.dfy` (module `Geometry`): two-dimensional vectors over the reals
  and the engine's clamped linear interpolation.
- `turret_model.dfy` (module `TurretModel`): the turret's fields as a value
  (`Turret`) and one function per callback:
  - `Transition` covers the state switch with its exit and entry hooks.
  - `Step` is one `Update` frame.
  - `Hit` is one `OnCollisionEnter2D`.
  - `Run` applies a sequence of callbacks and stops after the frame that asks
    for destruction.
- `turret_controller.dfy` (module `TurretController`): the class
  `TurretEnemyController`. It has the source's fields, and its methods update
  them in place. Its invariant `Valid` says that the animation flags agree
  with the state and that no attack pulse is pending. Each method is proved to
  produce the snapshot that the matching `TurretModel` function computes.
- `turret_properties.dfy` (module `TurretProperties`): the properties proved
  about a single callback and about whole runs.

Engine collaborators are inputs and outputs of a frame (`FrameInput`,
`FrameOutput`):

- The distance to the player, the circle-cast result, the aim angle, the
  random spread draw, the smoothing factor and the rigid body's velocity come
  in as inputs.
- The new rigid-body velocity, the spawned projectile, the animator booleans,
  the attack trigger and the destroy request go out as outputs.

Floats are modelled as reals.

Behaviour worth knowing:

- A stunned turret leaves `Hitstun` on the frame that finds the stun timer
  already negative. That is the frame after the one whose decrement made it
  negative. With a stun timer of 1 and frames of 0.25 s, the turret is still
  stunned after 5 frames and returns to `Default` on the 6th
  (`ScenarioRecover`).
- In `Hitstun`, the rigid body is smoothed toward `_targetVelocity`, which
  still holds the accumulated knockback. Only a `Default` frame zeroes the
  target velocity.
- The attack cooldown can go below zero: a frame subtracts the whole frame
  time from a positive cooldown. The turret fires once the cooldown is at
  zero or less.
- A bullet stuns a sleeping turret too. The stun leaves `Sleep` through the
  exit hook, and the turret then recovers into `Default`, whatever the
  player's distance.

## Model

| member | source | states |
|---|---|---|
| `TurretModel.Initial` | Assets/Scripts/Gameplay/TurretEnemyController.cs:36-61 | the turret starts asleep at full health, with consistent flags and no pending attack |
| `TurretModel.Transition` | Assets/Scripts/Gameplay/TurretEnemyController.cs:64-100 | a transition ends in the requested state and changes nothing but the state and the two flags; flags that agreed with the old state agree with the new one, self-transitions included |
| `TurretModel.Step` | Assets/Scripts/Gameplay/TurretEnemyController.cs:104-190 | a frame never changes health, always ends with the attack pulse down, and asks for destruction exactly when health is strictly below zero |
| `TurretModel.Hit` | Assets/Scripts/Gameplay/TurretEnemyController.cs:192-214 | a collision is applied exactly when it is a player bullet with projectile data; a bullet without it is reported as invalid; any collision that is not applied leaves the turret unchanged |
| `TurretModel.Jitter` | Assets/Scripts/Gameplay/TurretEnemyController.cs:146 | a random draw in [0, 1] gives a spread between -SpreadAngle and +SpreadAngle |
| `Geometry.Lerp` | Assets/Scripts/Gameplay/TurretEnemyController.cs:122 | the velocity smoothing keeps the current velocity for a factor at or below 0, reaches the target for a factor at or above 1, and otherwise stays between the two in each coordinate |
| `TurretController.TurretEnemyController.constructor` | Assets/Scripts/Gameplay/TurretEnemyController.cs:36-61 | field initialisers plus Start give the initial snapshot, and the class invariant holds |
| `TurretController.TurretEnemyController.TransitionToState` | Assets/Scripts/Gameplay/TurretEnemyController.cs:64-70 | running the exit hook, switching the state and then running the entry hook gives `Transition` of the old snapshot |
| `TurretController.TurretEnemyController.OnStateEnter` | Assets/Scripts/Gameplay/TurretEnemyController.cs:72-85 | entering Sleep or Hitstun raises that state's flag; entering Default changes nothing; the `fromState` argument is kept but, as in the source, unused |
| `TurretController.TurretEnemyController.OnStateExit` | Assets/Scripts/Gameplay/TurretEnemyController.cs:87-100 | leaving Sleep or Hitstun lowers that state's flag; leaving Default changes nothing; the `toState` argument is kept but, as in the source, unused |
| `TurretController.TurretEnemyController.Update` | Assets/Scripts/Gameplay/TurretEnemyController.cs:104-190 | the fields after the frame and the frame's outputs are exactly `Step` of the old snapshot; the class invariant is kept |
| `TurretController.TurretEnemyController.OnCollisionEnter2D` | Assets/Scripts/Gameplay/TurretEnemyController.cs:192-214 | the fields after the collision and its outcome are exactly `Hit` of the old snapshot; the class invariant is kept |
| `TurretProperties.TransitionFlags` | Assets/Scripts/Gameplay/TurretEnemyController.cs:64-100 | exit runs before entry and neither is skipped: a flag is up afterwards iff the new state raises it, or it was up and the old state's exit did not lower it |
| `TurretProperties.SelfTransitionIsIdentity` | Assets/Scripts/Gameplay/TurretEnemyController.cs:64-100 | from consistent flags, a self-transition (Hitstun to Hitstun, say) lowers and raises the flag again and leaves the turret as it was |
| `TurretProperties.NoFrameEntersSleep` | Assets/Scripts/Gameplay/TurretEnemyController.cs:104-190 | no frame moves an awake turret into Sleep |
| `TurretProperties.NoHitEntersSleep` | Assets/Scripts/Gameplay/TurretEnemyController.cs:192-214 | no collision moves an awake turret into Sleep |
| `TurretProperties.WakeUp` | Assets/Scripts/Gameplay/TurretEnemyController.cs:108-114 | asleep, a frame moves to Default (lowering the sleep flag) exactly when the distance is strictly below WakeupRadius, and otherwise changes nothing; it never writes the velocity or fires |
| `TurretProperties.AttackGating` | Assets/Scripts/Gameplay/TurretEnemyController.cs:115-154 | in Default the target velocity is zeroed and then: with a positive cooldown only `cooldown -= dt`, nothing fired; with a spent cooldown and the player in sight exactly one projectile from the turret's position, aimed within the spread, with the cooldown set to AttackCooldown and the trigger set; otherwise nothing more |
| `TurretProperties.HitstunFrame` | Assets/Scripts/Gameplay/TurretEnemyController.cs:155-171 | in Hitstun a frame returns to Default exactly when the timer is already negative and otherwise decrements it by dt and smooths toward the target velocity; the cooldown is untouched and nothing is fired |
| `TurretProperties.AttackPulseOneFrame` | Assets/Scripts/Gameplay/TurretEnemyController.cs:174-186 | from a settled turret a frame ends settled, the attack trigger is set exactly on the frame that fires, and the animator gets flags that agree with the new state |
| `TurretProperties.ValidBulletHit` | Assets/Scripts/Gameplay/TurretEnemyController.cs:192-210 | from any state, a player bullet with projectile data forces Hitstun, subtracts its damage without a floor, overwrites the stun timer, adds its knockback to the target velocity, leaves the cooldown and the attack pulse alone and keeps the turret settled |
| `TurretProperties.TwoHitsAccumulate` | Assets/Scripts/Gameplay/TurretEnemyController.cs:199-209 | after two hits the damage and the knockback of both add up and the second bullet's stun time wins |
| `TurretProperties.KnockbackLength` | Assets/Scripts/Gameplay/TurretEnemyController.cs:207-208 | for a unit heading, the knockback's length is KnockbackSpeed * (1 - KnockbackReductionFactor) |
| `TurretProperties.RunKeepsSettled` | Assets/Scripts/Gameplay/TurretEnemyController.cs:36-213 | over any sequence of frames and collisions from a settled turret, the flags keep agreeing with the state and no attack pulse stays pending |
| `TurretProperties.SleepNeverReentered` | Assets/Scripts/Gameplay/TurretEnemyController.cs:104-214 | once a turret is out of Sleep, no sequence of frames and collisions returns it there |
| `TurretProperties.FarPlayerKeepsSleeping` | Assets/Scripts/Gameplay/TurretEnemyController.cs:108-114 | a sleeping turret that is not hit, with the player never strictly inside WakeupRadius, is unchanged after any number of frames |
| `TurretProperties.DefaultAbsorbsFrames` | Assets/Scripts/Gameplay/TurretEnemyController.cs:115-154 | frames alone never move a turret out of Default, so the wake-up is not triggered again |
| `TurretProperties.HitstunEnds` | Assets/Scripts/Gameplay/TurretEnemyController.cs:155-169 | an alive stunned turret that is not hit again is in Default after n frames of at least d seconds each, when its stun timer is below (n - 1) * d |
| `TurretProperties.HitstunPersists` | Assets/Scripts/Gameplay/TurretEnemyController.cs:155-169 | a stunned turret that is not hit is still stunned after n frames of at most dmax seconds each, when its stun timer is at least (n - 1) * dmax |
| `TurretProperties.CooldownOnlyRunsInDefault` | Assets/Scripts/Gameplay/TurretEnemyController.cs:126-169 | a run in which no frame begins in Default ends with the attack cooldown it started with, so a stun preserves the cooldown |
| `TurretProperties.LethalHitEndsRun` | Assets/Scripts/Gameplay/TurretEnemyController.cs:189-202 | a hit that takes health below zero is followed by one frame that asks for destruction, and nothing after that frame is processed |
| `TurretProperties.ScenarioWake` | Assets/Scripts/Gameplay/TurretEnemyController.cs:108-114 | with the default parameters, the player at distance 12 leaves the turret asleep and at distance 8 wakes it |
| `TurretProperties.ScenarioHit` | Assets/Scripts/Gameplay/TurretEnemyController.cs:192-210 | a bullet of damage 2, stun time 1 and knockback speed 4 leaves the turret stunned, with 3 hit points, a stun timer of 1 and a target velocity of length 1 |
| `TurretProperties.ScenarioRecover` | Assets/Scripts/Gameplay/TurretEnemyController.cs:155-169 | with a stun timer of 1 and frames of 0.25 s, the turret is still stunned after 5 frames and back in Default after 6 |

## Left out

- `CameraController.cs` and `Interactable.cs` are not part of this model. They
  are camera smoothing, input polling and trigger plumbing with no discrete
  behaviour.
- The player lookup in `Start` (`GameObject.Find`, `GetComponent`) is not
  modelled, and neither is its failure when the player is missing. The
  constructor stands for a successful start.
- The line-of-sight circle cast is an oracle input (`FrameInput.cast`): the
  tag of the first collider hit, or none. Its aim point, radius, range and
  layer mask are not modelled. The same goes for `Debug.DrawRay`.
- `Vector2.Distance`, `Vector2.SignedAngle` and the bullet's
  `Quaternion.Euler` rotation are not modelled. They arrive as a distance, an
  aim angle and a heading vector. Trigonometric magnitudes are not verified.
- `Random.Range` is modelled as a draw in [0, 1] spread linearly over
  [-SpreadAngle, SpreadAngle]. The engine's sampling is not modelled.
- The smoothing factor `1 - exp(-MovementSharpness * dt)` is an input
  (`FrameInput.blend`). Nothing checks that it matches `dt`.
- `Instantiate`, the animator calls and `Destroy` are recorded outputs. The
  engine's deferred destruction is modelled only as `Run` stopping after the
  frame that asks for it.
- The rigid body's own velocity integration belongs to the physics engine. The
  model reads the velocity as an input and writes it as an output.
- `Debug.LogError` for a bullet without projectile data is the
  `InvalidProjectile` outcome. The message is not modelled.
- Single-precision floats are modelled as exact reals, so rounding is not
  captured. With a frame time that binary floating point cannot represent
  (0.1 s, say), the frame on which a timer turns negative can differ by one
  from the exact-real count. `ScenarioRecover` uses 0.25 s frames, for which
  both counts agree.
- The inspector fields are a constant `Config`. The public
  `CurrentEnemyState` field is not written by other objects. Changes made from
  outside the controller are not modelled.
