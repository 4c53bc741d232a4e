/** The turret enemy as values: its state snapshot, the engine inputs of one
    frame, what one frame and one collision do to the snapshot, and a run over
    a sequence of engine callbacks. The class in turret_controller.dfy updates
    its fields in place and is specified by these functions. */
module TurretModel {
  import opened Geometry

  datatype Option<T> = None | Some(value: T)

  datatype TurretEnemyState = Sleep | Default | Hitstun

  /** The inspector-tunable parameters of one turret, fixed once it exists.
      MovementSharpness, RaycastRadius and RaycastRange reach the model only
      through inputs the engine computes from them (see FrameInput). */
  datatype Config = Config(
    MovementSharpness: real,
    KnockbackReductionFactor: real,
    RaycastRadius: real,
    RaycastRange: real,
    AttackCooldown: real,
    SpreadAngle: real,
    MaxHP: real,
    WakeupRadius: real)

  /** The values the turret's fields are declared with. */
  const DefaultConfig := Config(10.0, 0.75, 0.5, 3.0, 5.0, 3.0, 5.0, 10.0)

  const PlayerTag := "Player"
  const PlayerBulletTag := "PlayerBullet"

  /** Everything the controller itself updates. */
  datatype Turret = Turret(
    state: TurretEnemyState,
    hp: real,
    attackCooldownTimer: real,
    targetVelocity: Vec2,
    hitStunTimer: real,
    isHitStunned: bool,
    isSleeping: bool,
    isAttacking: bool)

  /** The animation flags agree with the current state. */
  predicate FlagsMatch(t: Turret) {
    t.isSleeping == (t.state == Sleep) && t.isHitStunned == (t.state == Hitstun)
  }

  /** What holds between engine callbacks: the flags agree with the state and
      the one-frame attack pulse has been consumed. */
  predicate Settled(t: Turret) {
    FlagsMatch(t) && !t.isAttacking
  }

  /** The turret after its field initialisers and Start: asleep, at full health,
      timers and target velocity zero. */
  function Initial(cfg: Config): (t: Turret)
    ensures Settled(t) && t.state == Sleep && t.hp == cfg.MaxHP
  {
    Turret(Sleep, cfg.MaxHP, 0.0, Zero, 0.0, false, true, false)
  }

  // ---------------------------------------------------------------------
  // State machine

  /** Entry effects: entering Sleep or Hitstun raises that state's flag. */
  function EnterState(t: Turret, state: TurretEnemyState): Turret {
    match state
    case Sleep => t.(isSleeping := true)
    case Default => t
    case Hitstun => t.(isHitStunned := true)
  }

  /** Exit effects: leaving Sleep or Hitstun lowers that state's flag. */
  function ExitState(t: Turret, state: TurretEnemyState): Turret {
    match state
    case Sleep => t.(isSleeping := false)
    case Default => t
    case Hitstun => t.(isHitStunned := false)
  }

  /** Run the old state's exit effects, switch, run the new state's entry
      effects. The result is in `newState`, nothing but the state and the two
      flags changes, and flags that agreed with the old state agree with the
      new one, self-transitions included. */
  function Transition(t: Turret, newState: TurretEnemyState): (r: Turret)
    ensures r.state == newState
    ensures r.hp == t.hp && r.attackCooldownTimer == t.attackCooldownTimer
    ensures r.hitStunTimer == t.hitStunTimer && r.targetVelocity == t.targetVelocity
    ensures r.isAttacking == t.isAttacking
    ensures FlagsMatch(t) ==> FlagsMatch(r)
  {
    var initialState := t.state;
    var exited := ExitState(t, initialState);
    EnterState(exited.(state := newState), newState)
  }

  // ---------------------------------------------------------------------
  // One frame

  /** What the circle cast towards the player reports: nothing, or the tag of
      the collider it hit first. */
  datatype CastHit = NoCollider | Collider(tag: string)

  /** What the engine supplies to one Update call. */
  datatype FrameInput = FrameInput(
    dt: real,             // the frame's elapsed time
    playerDistance: real, // distance from the player to the turret
    position: Vec2,       // the turret's position
    rbVelocity: Vec2,     // the rigid body's velocity before the frame
    blend: real,          // 1 - exp(-MovementSharpness * dt)
    cast: CastHit,        // the line-of-sight circle cast
    aimAngle: real,       // signed angle in degrees from +x to the player
    spreadSample: real)   // the random draw behind the spread, as a fraction in [0, 1]

  /** A projectile the turret asks the engine to instantiate. */
  datatype Spawn = Spawn(position: Vec2, angleDegrees: real)

  /** What one Update call hands back to the engine: the rigid body's new
      velocity when it writes one, the projectile it spawns, the two animator
      booleans, whether the attack trigger is set (true) or reset (false), and
      whether it asks for the turret to be destroyed. */
  datatype FrameOutput = FrameOutput(
    rbVelocity: Option<Vec2>,
    spawn: Option<Spawn>,
    animSleeping: bool,
    animHitstun: bool,
    attackTrigger: bool,
    destroy: bool)

  datatype Frame = Frame(next: Turret, out: FrameOutput)

  /** The random spread: a fraction in [0, 1] spread across
      [-spread, spread]. */
  function Jitter(spread: real, u: real): (r: real)
    ensures 0.0 <= u <= 1.0 ==> Between(-spread, spread, r)
  {
    LerpCoordinateBetween(-spread, spread, u);
    -spread + (spread - -spread) * u
  }

  /** The state-dependent part of a frame: the new snapshot, the velocity
      written to the rigid body and the projectile spawned. */
  datatype Logic = Logic(t: Turret, velocity: Option<Vec2>, spawn: Option<Spawn>)

  function SleepLogic(cfg: Config, t: Turret, i: FrameInput): Logic {
    if i.playerDistance < cfg.WakeupRadius then Logic(Transition(t, Default), None, None)
    else Logic(t, None, None)
  }

  predicate SeesPlayer(c: CastHit) {
    c.Collider? && c.tag == PlayerTag
  }

  function DefaultLogic(cfg: Config, t: Turret, i: FrameInput): Logic {
    var still := t.(targetVelocity := Zero);
    var velocity := Some(Lerp(i.rbVelocity, still.targetVelocity, i.blend));
    if still.attackCooldownTimer > 0.0 then
      Logic(still.(attackCooldownTimer := still.attackCooldownTimer - i.dt), velocity, None)
    else if SeesPlayer(i.cast) then
      var shot := Spawn(i.position, i.aimAngle + Jitter(cfg.SpreadAngle, i.spreadSample));
      Logic(still.(attackCooldownTimer := cfg.AttackCooldown, isAttacking := true), velocity, Some(shot))
    else
      Logic(still, velocity, None)
  }

  function HitstunLogic(cfg: Config, t: Turret, i: FrameInput): Logic {
    if t.hitStunTimer < 0.0 then Logic(Transition(t, Default), None, None)
    else
      Logic(t.(hitStunTimer := t.hitStunTimer - i.dt),
            Some(Lerp(i.rbVelocity, t.targetVelocity, i.blend)), None)
  }

  function StateLogic(cfg: Config, t: Turret, i: FrameInput): Logic {
    match t.state
    case Sleep => SleepLogic(cfg, t, i)
    case Default => DefaultLogic(cfg, t, i)
    case Hitstun => HitstunLogic(cfg, t, i)
  }

  /** One Update: the state logic, then the animator outputs (the attack
      pulse is consumed), then the death check on the resulting health. No
      frame changes health, every frame ends with the attack pulse down, and
      destruction is asked for exactly when health is strictly below zero, so
      zero health survives. */
  function Step(cfg: Config, t: Turret, i: FrameInput): (f: Frame)
    ensures f.next.hp == t.hp
    ensures !f.next.isAttacking
    ensures f.out.destroy <==> t.hp < 0.0
  {
    var l := StateLogic(cfg, t, i);
    var out := FrameOutput(l.velocity, l.spawn, l.t.isSleeping, l.t.isHitStunned,
                           l.t.isAttacking, l.t.hp < 0.0);
    Frame(l.t.(isAttacking := false), out)
  }

  // ---------------------------------------------------------------------
  // Collisions

  /** The fields of a player bullet that the turret reads. */
  datatype Projectile = Projectile(Damage: real, HitstunTime: real, KnockbackSpeed: real)

  /** A collision: the other object's tag, its projectile component if it has
      one, and the unit vector its rotation turns +x into. */
  datatype Collision = Collision(tag: string, projectile: Option<Projectile>, heading: Vec2)

  /** NotABullet: ignored. InvalidProjectile: a bullet without projectile data,
      logged as an error and otherwise ignored. Applied: damage was taken. */
  datatype CollisionOutcome = NotABullet | InvalidProjectile | Applied

  datatype Contact = Contact(next: Turret, outcome: CollisionOutcome)

  /** The knockback of one bullet: its heading scaled by its knockback speed
      and by the share of knockback the turret does not ignore. */
  function Knockback(cfg: Config, p: Projectile, heading: Vec2): Vec2 {
    Scale(Scale(heading, p.KnockbackSpeed), 1.0 - cfg.KnockbackReductionFactor)
  }

  /** A collision. Only a player bullet with projectile data is applied;
      any other collision, the invalid bullet included, leaves the turret
      exactly as it was. */
  function Hit(cfg: Config, t: Turret, c: Collision): (r: Contact)
    ensures r.outcome == Applied <==> c.tag == PlayerBulletTag && c.projectile.Some?
    ensures r.outcome == InvalidProjectile <==> c.tag == PlayerBulletTag && c.projectile.None?
    ensures r.outcome != Applied ==> r.next == t
  {
    if c.tag != PlayerBulletTag then Contact(t, NotABullet)
    else if c.projectile.None? then Contact(t, InvalidProjectile)
    else
      var p := c.projectile.value;
      var stunned := Transition(t, Hitstun);
      var next := stunned.(hp := stunned.hp - p.Damage,
                           hitStunTimer := p.HitstunTime,
                           targetVelocity := Add(stunned.targetVelocity, Knockback(cfg, p, c.heading)));
      Contact(next, Applied)
  }

  // ---------------------------------------------------------------------
  // Runs

  /** An engine callback: a frame's Update or a collision. */
  datatype Event = Tick(input: FrameInput) | Bump(collision: Collision)

  /** The turret after a sequence of callbacks. A frame that asks for
      destruction is the last one the turret sees. */
  function Run(cfg: Config, t: Turret, evs: seq<Event>): Turret
    decreases |evs|
  {
    if evs == [] then t
    else match evs[0]
      case Tick(i) =>
        var f := Step(cfg, t, i);
        if f.out.destroy then f.next else Run(cfg, f.next, evs[1..])
      case Bump(c) => Run(cfg, Hit(cfg, t, c).next, evs[1..])
  }

  /** How many frames of `evs` begin with the turret in Default. */
  function DefaultFrames(cfg: Config, t: Turret, evs: seq<Event>): nat
    decreases |evs|
  {
    if evs == [] then 0
    else match evs[0]
      case Tick(i) =>
        var f := Step(cfg, t, i);
        var here := if t.state == Default then 1 else 0;
        if f.out.destroy then here else here + DefaultFrames(cfg, f.next, evs[1..])
      case Bump(c) => DefaultFrames(cfg, Hit(cfg, t, c).next, evs[1..])
  }

  predicate AllTicks(evs: seq<Event>) {
    forall k :: 0 <= k < |evs| ==> evs[k].Tick?
  }
}
