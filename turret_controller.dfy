/** The turret controller as the engine sees it: an object whose callbacks
    update its fields in place. Each method is specified by the matching
    function of TurretModel applied to the snapshot of the fields. */
module TurretController {
  import opened Geometry
  import opened TurretModel

  class TurretEnemyController {
    const cfg: Config

    var CurrentEnemyState: TurretEnemyState
    var hp: real
    var attackCooldownTimer: real
    var targetVelocity: Vec2
    var hitStunTimer: real
    // animation flags
    var isHitStunned: bool
    var isSleeping: bool
    var isAttacking: bool

    /** The fields as a value. */
    function Snapshot(): Turret
      reads this
    {
      Turret(CurrentEnemyState, hp, attackCooldownTimer, targetVelocity, hitStunTimer,
             isHitStunned, isSleeping, isAttacking)
    }

    /** Class invariant: the flags agree with the state and no attack pulse
        is pending between callbacks. */
    predicate Valid()
      reads this
    {
      Settled(Snapshot())
    }

    /** Field initialisers followed by Start: asleep at full health. */
    constructor (cfg: Config)
      ensures this.cfg == cfg
      ensures Valid() && Snapshot() == Initial(cfg)
    {
      this.cfg := cfg;
      CurrentEnemyState := Sleep;
      attackCooldownTimer := 0.0;
      targetVelocity := Zero;
      hitStunTimer := 0.0;
      isHitStunned := false;
      isSleeping := true;
      isAttacking := false;
      hp := cfg.MaxHP;
    }

    method TransitionToState(newState: TurretEnemyState)
      modifies this
      ensures Snapshot() == Transition(old(Snapshot()), newState)
    {
      var initialState := CurrentEnemyState;
      OnStateExit(initialState, newState);
      CurrentEnemyState := newState;
      OnStateEnter(newState, initialState);
    }

    /** `fromState` is part of the hook's interface; no entry effect reads it. */
    method OnStateEnter(state: TurretEnemyState, fromState: TurretEnemyState)
      modifies this`isSleeping, this`isHitStunned
      ensures Snapshot() == EnterState(old(Snapshot()), state)
    {
      match state {
        case Sleep => isSleeping := true;
        case Default =>
        case Hitstun => isHitStunned := true;
      }
    }

    /** `toState` is part of the hook's interface; no exit effect reads it. */
    method OnStateExit(state: TurretEnemyState, toState: TurretEnemyState)
      modifies this`isSleeping, this`isHitStunned
      ensures Snapshot() == ExitState(old(Snapshot()), state)
    {
      match state {
        case Sleep => isSleeping := false;
        case Default =>
        case Hitstun => isHitStunned := false;
      }
    }

    /** One frame: state dispatch, animator outputs, death check. */
    method Update(i: FrameInput) returns (out: FrameOutput)
      requires Valid()
      modifies this
      ensures Valid()
      ensures Frame(Snapshot(), out) == Step(cfg, old(Snapshot()), i)
    {
      var velocity: Option<Vec2> := None;
      var spawn: Option<Spawn> := None;
      match CurrentEnemyState {
        case Sleep =>
          if i.playerDistance < cfg.WakeupRadius {
            TransitionToState(Default);
          }
        case Default =>
          targetVelocity := Zero;
          velocity := Some(Lerp(i.rbVelocity, targetVelocity, i.blend));
          if attackCooldownTimer > 0.0 {
            attackCooldownTimer := attackCooldownTimer - i.dt;
          } else if SeesPlayer(i.cast) {
            spawn := Some(Spawn(i.position, i.aimAngle + Jitter(cfg.SpreadAngle, i.spreadSample)));
            attackCooldownTimer := cfg.AttackCooldown;
            isAttacking := true;
          }
        case Hitstun =>
          if hitStunTimer < 0.0 {
            TransitionToState(Default);
          } else {
            velocity := Some(Lerp(i.rbVelocity, targetVelocity, i.blend));
            hitStunTimer := hitStunTimer - i.dt;
          }
      }
      var attackTrigger := isAttacking;
      if isAttacking {
        isAttacking := false;
      }
      out := FrameOutput(velocity, spawn, isSleeping, isHitStunned, attackTrigger, hp < 0.0);
    }

    /** A collision: player bullets stun, damage and push the turret. */
    method OnCollisionEnter2D(c: Collision) returns (outcome: CollisionOutcome)
      requires Valid()
      modifies this
      ensures Valid()
      ensures Contact(Snapshot(), outcome) == Hit(cfg, old(Snapshot()), c)
    {
      outcome := NotABullet;
      if c.tag == PlayerBulletTag {
        if c.projectile.Some? {
          var p := c.projectile.value;
          TransitionToState(Hitstun);
          hp := hp - p.Damage;
          hitStunTimer := p.HitstunTime;
          targetVelocity := Add(targetVelocity, Knockback(cfg, p, c.heading));
          outcome := Applied;
        } else {
          outcome := InvalidProjectile;
        }
      }
    }
  }
}
