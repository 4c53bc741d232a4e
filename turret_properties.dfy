/** What the turret promises, stated about TurretModel: the flag invariant,
    the one-way wake-up, attack gating, the one-frame attack pulse, hitstun
    entry and exit, knockback accumulation and the death check, first for a
    single callback and then for whole runs of callbacks. */
module TurretProperties {
  import opened Geometry
  import opened TurretModel

  // ---------------------------------------------------------------------
  // State machine

  /** Exit effects run before entry effects, and neither is ever skipped: a
      flag is up afterwards exactly when the new state raises it, or it was
      already up and the old state's exit did not lower it. */
  lemma TransitionFlags(t: Turret, s: TurretEnemyState)
    ensures Transition(t, s).isSleeping == (s == Sleep || (t.isSleeping && t.state != Sleep))
    ensures Transition(t, s).isHitStunned == (s == Hitstun || (t.isHitStunned && t.state != Hitstun))
  {
  }

  /** A self-transition from a consistent snapshot lowers and raises the
      flag again and so leaves the turret as it was. */
  lemma SelfTransitionIsIdentity(t: Turret)
    requires FlagsMatch(t)
    ensures Transition(t, t.state) == t
  {
  }

  /** No frame puts an awake turret to sleep. */
  lemma NoFrameEntersSleep(cfg: Config, t: Turret, i: FrameInput)
    requires t.state != Sleep
    ensures Step(cfg, t, i).next.state != Sleep
  {
  }

  /** No collision puts an awake turret to sleep. */
  lemma NoHitEntersSleep(cfg: Config, t: Turret, c: Collision)
    requires t.state != Sleep
    ensures Hit(cfg, t, c).next.state != Sleep
  {
  }

  // ---------------------------------------------------------------------
  // One frame

  /** Asleep, a frame wakes the turret exactly when the player is strictly
      closer than the wake-up radius; otherwise nothing changes. Either way
      the rigid body is left alone and nothing is fired. */
  lemma WakeUp(cfg: Config, t: Turret, i: FrameInput)
    requires Settled(t) && t.state == Sleep
    ensures i.playerDistance < cfg.WakeupRadius ==>
              Step(cfg, t, i).next == t.(state := Default, isSleeping := false)
    ensures !(i.playerDistance < cfg.WakeupRadius) ==> Step(cfg, t, i).next == t
    ensures Step(cfg, t, i).out.rbVelocity.None? && Step(cfg, t, i).out.spawn.None?
  {
  }

  /** In Default the target velocity is zeroed and then: a running cooldown
      only counts down; a spent cooldown with the player in sight fires one
      projectile, aimed within the spread, and restarts the cooldown; a spent
      cooldown without the player in sight changes nothing else. */
  lemma AttackGating(cfg: Config, t: Turret, i: FrameInput)
    requires Settled(t) && t.state == Default
    ensures t.attackCooldownTimer > 0.0 ==>
              && Step(cfg, t, i).next == t.(targetVelocity := Zero,
                                            attackCooldownTimer := t.attackCooldownTimer - i.dt)
              && Step(cfg, t, i).out.spawn.None?
              && !Step(cfg, t, i).out.attackTrigger
    ensures t.attackCooldownTimer <= 0.0 && SeesPlayer(i.cast) ==>
              && Step(cfg, t, i).next == t.(targetVelocity := Zero,
                                            attackCooldownTimer := cfg.AttackCooldown)
              && Step(cfg, t, i).out.spawn.Some?
              && Step(cfg, t, i).out.spawn.value.position == i.position
              && Step(cfg, t, i).out.attackTrigger
    ensures t.attackCooldownTimer <= 0.0 && !SeesPlayer(i.cast) ==>
              && Step(cfg, t, i).next == t.(targetVelocity := Zero)
              && Step(cfg, t, i).out.spawn.None?
              && !Step(cfg, t, i).out.attackTrigger
    ensures Step(cfg, t, i).out.rbVelocity == Some(Lerp(i.rbVelocity, Zero, i.blend))
    ensures Step(cfg, t, i).out.spawn.Some? && 0.0 <= i.spreadSample <= 1.0 ==>
              Between(i.aimAngle - cfg.SpreadAngle, i.aimAngle + cfg.SpreadAngle,
                      Step(cfg, t, i).out.spawn.value.angleDegrees)
  {
  }

  /** In Hitstun a frame whose timer is already negative returns to Default
      and does nothing else; any other frame counts the timer down and drifts
      the rigid body towards the target velocity. The attack cooldown is not
      touched either way. */
  lemma HitstunFrame(cfg: Config, t: Turret, i: FrameInput)
    requires Settled(t) && t.state == Hitstun
    ensures t.hitStunTimer < 0.0 ==>
              && Step(cfg, t, i).next == t.(state := Default, isHitStunned := false)
              && Step(cfg, t, i).out.rbVelocity.None?
    ensures !(t.hitStunTimer < 0.0) ==>
              && Step(cfg, t, i).next == t.(hitStunTimer := t.hitStunTimer - i.dt)
              && Step(cfg, t, i).out.rbVelocity == Some(Lerp(i.rbVelocity, t.targetVelocity, i.blend))
    ensures Step(cfg, t, i).next.attackCooldownTimer == t.attackCooldownTimer
    ensures Step(cfg, t, i).out.spawn.None?
  {
  }

  /** After every frame the attack pulse is down again; from a settled
      turret the trigger is set exactly on the frames that fire, and the
      animator receives flags that agree with the new state. */
  lemma AttackPulseOneFrame(cfg: Config, t: Turret, i: FrameInput)
    requires Settled(t)
    ensures Settled(Step(cfg, t, i).next)
    ensures Step(cfg, t, i).out.attackTrigger <==> Step(cfg, t, i).out.spawn.Some?
    ensures Step(cfg, t, i).out.animSleeping == (Step(cfg, t, i).next.state == Sleep)
    ensures Step(cfg, t, i).out.animHitstun == (Step(cfg, t, i).next.state == Hitstun)
  {
  }

  // ---------------------------------------------------------------------
  // Collisions

  /** A player bullet with projectile data, in any state: the turret is
      stunned, loses the bullet's damage without a floor, has its stun timer
      overwritten and its knockback added to the target velocity; the
      cooldown and the attack pulse are untouched and the flags stay
      consistent. */
  lemma ValidBulletHit(cfg: Config, t: Turret, c: Collision)
    requires c.tag == PlayerBulletTag && c.projectile.Some?
    ensures Hit(cfg, t, c).outcome == Applied
    ensures Hit(cfg, t, c).next.state == Hitstun
    ensures Hit(cfg, t, c).next.hp == t.hp - c.projectile.value.Damage
    ensures Hit(cfg, t, c).next.hitStunTimer == c.projectile.value.HitstunTime
    ensures Hit(cfg, t, c).next.targetVelocity ==
              Add(t.targetVelocity, Knockback(cfg, c.projectile.value, c.heading))
    ensures Hit(cfg, t, c).next.attackCooldownTimer == t.attackCooldownTimer
    ensures Hit(cfg, t, c).next.isAttacking == t.isAttacking
    ensures Settled(t) ==> Settled(Hit(cfg, t, c).next)
  {
  }

  /** Two hits in a row: damage adds up, knockback adds up, and the second
      bullet's stun time replaces the first's. */
  lemma TwoHitsAccumulate(cfg: Config, t: Turret, c1: Collision, c2: Collision)
    requires c1.tag == PlayerBulletTag && c1.projectile.Some?
    requires c2.tag == PlayerBulletTag && c2.projectile.Some?
    ensures var r := Hit(cfg, Hit(cfg, t, c1).next, c2).next;
      && r.state == Hitstun
      && r.hp == t.hp - c1.projectile.value.Damage - c2.projectile.value.Damage
      && r.hitStunTimer == c2.projectile.value.HitstunTime
      && r.targetVelocity == Add(Add(t.targetVelocity, Knockback(cfg, c1.projectile.value, c1.heading)),
                                 Knockback(cfg, c2.projectile.value, c2.heading))
  {
  }

  /** The knockback's size is the bullet's knockback speed times the share
      the turret does not ignore, for a unit heading: its squared length is
      the square of that product. */
  lemma KnockbackLength(cfg: Config, p: Projectile, heading: Vec2)
    requires heading.x * heading.x + heading.y * heading.y == 1.0
    ensures var k := Knockback(cfg, p, heading);
            var m := p.KnockbackSpeed * (1.0 - cfg.KnockbackReductionFactor);
            k.x * k.x + k.y * k.y == m * m
  {
  }

  // ---------------------------------------------------------------------
  // Runs

  /** Every run from a settled turret ends settled: the flag invariant and
      the consumed attack pulse hold between all callbacks. */
  lemma {:induction false} RunKeepsSettled(cfg: Config, t: Turret, evs: seq<Event>)
    requires Settled(t)
    ensures Settled(Run(cfg, t, evs))
    decreases |evs|
  {
    if evs != [] {
      match evs[0]
      case Tick(i) =>
        AttackPulseOneFrame(cfg, t, i);
        RunKeepsSettled(cfg, Step(cfg, t, i).next, evs[1..]);
      case Bump(c) =>
        if c.tag == PlayerBulletTag && c.projectile.Some? {
          ValidBulletHit(cfg, t, c);
        }
        RunKeepsSettled(cfg, Hit(cfg, t, c).next, evs[1..]);
    }
  }

  /** Once the turret is awake, no run puts it back to sleep. */
  lemma {:induction false} SleepNeverReentered(cfg: Config, t: Turret, evs: seq<Event>)
    requires t.state != Sleep
    ensures Run(cfg, t, evs).state != Sleep
    decreases |evs|
  {
    if evs != [] {
      match evs[0]
      case Tick(i) =>
        NoFrameEntersSleep(cfg, t, i);
        SleepNeverReentered(cfg, Step(cfg, t, i).next, evs[1..]);
      case Bump(c) =>
        NoHitEntersSleep(cfg, t, c);
        SleepNeverReentered(cfg, Hit(cfg, t, c).next, evs[1..]);
    }
  }

  /** A sleeping turret whose player stays at or beyond the wake-up radius,
      and that is not hit, stays exactly as it is, however many frames pass. */
  lemma {:induction false} FarPlayerKeepsSleeping(cfg: Config, t: Turret, evs: seq<Event>)
    requires Settled(t) && t.state == Sleep
    requires forall k :: 0 <= k < |evs| ==>
               evs[k].Tick? && evs[k].input.playerDistance >= cfg.WakeupRadius
    ensures Run(cfg, t, evs) == t
    decreases |evs|
  {
    if evs != [] {
      WakeUp(cfg, t, evs[0].input);
      FarPlayerKeepsSleeping(cfg, t, evs[1..]);
    }
  }

  /** Frames alone never move the turret out of Default: the wake-up fires
      once and is not re-triggered. */
  lemma {:induction false} DefaultAbsorbsFrames(cfg: Config, t: Turret, evs: seq<Event>)
    requires t.state == Default && AllTicks(evs)
    ensures Run(cfg, t, evs).state == Default
    decreases |evs|
  {
    if evs != [] {
      var f := Step(cfg, t, evs[0].input);
      assert f.next.state == Default;
      if !f.out.destroy {
        DefaultAbsorbsFrames(cfg, f.next, evs[1..]);
      }
    }
  }

  /** A stunned turret that is alive and not hit again is back in Default
      after n frames of at least d seconds each, once its stun timer is below
      (n - 1) * d: the frame that finds the timer negative is the one that
      leaves Hitstun. */
  lemma {:induction false} HitstunEnds(cfg: Config, t: Turret, evs: seq<Event>, d: real)
    requires t.state == Hitstun && t.hp >= 0.0
    requires evs != []
    requires forall k :: 0 <= k < |evs| ==> evs[k].Tick? && evs[k].input.dt >= d
    requires t.hitStunTimer < (|evs| - 1) as real * d
    ensures Run(cfg, t, evs).state == Default
    decreases |evs|
  {
    var i := evs[0].input;
    var f := Step(cfg, t, i);
    assert !f.out.destroy;
    if t.hitStunTimer < 0.0 {
      assert f.next.state == Default;
      DefaultAbsorbsFrames(cfg, f.next, evs[1..]);
    } else {
      assert f.next.hitStunTimer == t.hitStunTimer - i.dt;
      assert (|evs| - 1) as real * d == (|evs[1..]| - 1) as real * d + d;
      assert |evs| >= 2;
      HitstunEnds(cfg, f.next, evs[1..], d);
    }
  }

  /** Conversely, a stunned turret that is not hit stays in Hitstun for n
      frames of at most dmax seconds each while its stun timer is at least
      (n - 1) * dmax: no frame before the n-th finds the timer negative. */
  lemma {:induction false} HitstunPersists(cfg: Config, t: Turret, evs: seq<Event>, dmax: real)
    requires t.state == Hitstun && dmax >= 0.0
    requires forall k :: 0 <= k < |evs| ==> evs[k].Tick? && evs[k].input.dt <= dmax
    requires t.hitStunTimer >= (|evs| - 1) as real * dmax
    ensures Run(cfg, t, evs).state == Hitstun
    decreases |evs|
  {
    if evs != [] {
      var i := evs[0].input;
      var f := Step(cfg, t, i);
      assert t.hitStunTimer >= 0.0 by {
        ProductSign(dmax, (|evs| - 1) as real);
      }
      assert f.next.state == Hitstun && f.next.hitStunTimer == t.hitStunTimer - i.dt;
      if !f.out.destroy && |evs| >= 2 {
        assert (|evs| - 1) as real * dmax == (|evs[1..]| - 1) as real * dmax + dmax;
        HitstunPersists(cfg, f.next, evs[1..], dmax);
      } else if !f.out.destroy {
        assert evs[1..] == [];
      }
    }
  }

  /** The attack cooldown changes only on frames that begin in Default: a
      run with no such frame, whatever stuns, hits and wake-ups it holds,
      ends with the cooldown it started with. */
  lemma {:induction false} CooldownOnlyRunsInDefault(cfg: Config, t: Turret, evs: seq<Event>)
    requires DefaultFrames(cfg, t, evs) == 0
    ensures Run(cfg, t, evs).attackCooldownTimer == t.attackCooldownTimer
    decreases |evs|
  {
    if evs != [] {
      match evs[0]
      case Tick(i) =>
        assert t.state != Default;
        var f := Step(cfg, t, i);
        assert f.next.attackCooldownTimer == t.attackCooldownTimer;
        if !f.out.destroy {
          CooldownOnlyRunsInDefault(cfg, f.next, evs[1..]);
        }
      case Bump(c) =>
        assert Hit(cfg, t, c).next.attackCooldownTimer == t.attackCooldownTimer;
        CooldownOnlyRunsInDefault(cfg, Hit(cfg, t, c).next, evs[1..]);
    }
  }

  /** A lethal hit is followed by exactly one more frame: the frame asks for
      destruction and nothing after it is processed. */
  lemma LethalHitEndsRun(cfg: Config, t: Turret, c: Collision, i: FrameInput, rest: seq<Event>)
    requires c.tag == PlayerBulletTag && c.projectile.Some?
    requires t.hp - c.projectile.value.Damage < 0.0
    ensures Step(cfg, Hit(cfg, t, c).next, i).out.destroy
    ensures Run(cfg, t, [Bump(c), Tick(i)] + rest) == Step(cfg, Hit(cfg, t, c).next, i).next
  {
  }

  // ---------------------------------------------------------------------
  // A worked run with the default parameters (5 hit points, wake-up radius
  // 10, knockback reduction 0.75)

  /** A quiet frame of a quarter of a second (a step that binary floating
      point represents exactly, so the frame counts below hold for the
      program's single-precision timers as well). */
  function Calm(distance: real): FrameInput {
    FrameInput(0.25, distance, Zero, Zero, 0.0, NoCollider, 0.0, 0.0)
  }

  function CalmFrames(n: nat): (evs: seq<Event>)
    ensures |evs| == n && forall k :: 0 <= k < n ==> evs[k] == Tick(Calm(12.0))
  {
    seq(n, k => Tick(Calm(12.0)))
  }

  /** The bullet of the worked run: damage 2, stun time 1 and knockback
      speed 4, flying along +x. */
  function ScenarioBullet(): Collision {
    Collision(PlayerBulletTag, Some(Projectile(2.0, 1.0, 4.0)), Vec2(1.0, 0.0))
  }

  /** The player at distance 12 leaves the sleeping turret as it is; at
      distance 8 it wakes. */
  lemma ScenarioWake()
    ensures Run(DefaultConfig, Initial(DefaultConfig), [Tick(Calm(12.0))]) == Initial(DefaultConfig)
    ensures Run(DefaultConfig, Initial(DefaultConfig), [Tick(Calm(8.0))]) ==
              Initial(DefaultConfig).(state := Default, isSleeping := false)
  {
    WakeUp(DefaultConfig, Initial(DefaultConfig), Calm(12.0));
    WakeUp(DefaultConfig, Initial(DefaultConfig), Calm(8.0));
  }

  /** The bullet stuns the awake turret with 3 hit points left, a stun timer
      of 1 and a target velocity of length 1 (4 * (1 - 0.75)) along +x. */
  lemma ScenarioHit(t: Turret)
    requires Settled(t) && t.state == Default && t.hp == 5.0 && t.targetVelocity == Zero
    ensures var r := Hit(DefaultConfig, t, ScenarioBullet()).next;
      r.state == Hitstun && r.hp == 3.0 && r.hitStunTimer == 1.0 &&
      r.targetVelocity == Vec2(1.0, 0.0)
  {
    ValidBulletHit(DefaultConfig, t, ScenarioBullet());
  }

  /** With a stun timer of 1 and frames of 0.25 s the turret is still
      stunned after 5 frames (the 5th finds the timer at exactly zero, which
      is not below zero, and takes it to -0.25) and the 6th frame returns it
      to Default. */
  lemma ScenarioRecover(t: Turret)
    requires t.state == Hitstun && t.hitStunTimer == 1.0 && t.hp >= 0.0
    ensures Run(DefaultConfig, t, CalmFrames(5)).state == Hitstun
    ensures Run(DefaultConfig, t, CalmFrames(6)).state == Default
  {
    HitstunPersists(DefaultConfig, t, CalmFrames(5), 0.25);
    HitstunEnds(DefaultConfig, t, CalmFrames(6), 0.25);
  }
}
