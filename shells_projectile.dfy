/** `Projectile` of the `shells` revision: a velocity, a lifetime, an image
    and an optional one-shot acceleration policy. `accelerate` changes a
    projectile in place, so it is a class. */
module ShellsProjectile {
  import opened Base
  import opened Vector
  import opened Timing
  import opened ShellsMovement
  import opened ShellsAccelerator

  /** An accelerator is attached and its burn timer has not finished. */
  predicate Burning(a: Option<Accelerator>) {
    a.Some? && !a.value.burnTime.finished
  }

  class Projectile {
    var velocity: Velocity
    var life: Lifetime
    var image: ImageHandle
    var color: Option<string>
    var accelerator: Option<Accelerator>

    constructor (velocity: Velocity, life: Lifetime, image: ImageHandle, color: Option<string>,
                 accelerator: Option<Accelerator>)
      ensures this.velocity == velocity && this.life == life && this.image == image
      ensures this.color == color && this.accelerator == accelerator
    {
      this.velocity := velocity;
      this.life := life;
      this.image := image;
      this.color := color;
      this.accelerator := accelerator;
    }

    /** `Projectile::accelerate(duration)`: gravity first, then the attached
        policy while its burn timer runs, and detachment once it has run out.
        `draw` stands for the random numbers a randomizing policy takes. */
    method Accelerate(duration: nat, draw: Vec2)
      requires UnitDraws(draw)
      modifies this`velocity, this`accelerator
      // only the velocity and the accelerator change
      ensures life == old(life) && image == old(image) && color == old(color)
      // afterwards either nothing is attached or the attached burn timer still runs
      ensures accelerator.None? || !accelerator.value.burnTime.finished
      // without a burning policy: gravity only, and the policy (if any) is dropped for good
      ensures !Burning(old(accelerator)) ==>
        velocity == Add(old(velocity), Scale(Seconds(duration), GRAVITY)) && accelerator.None?
      // a burning policy: its timer is ticked, and it is kept only while it still runs
      ensures Burning(old(accelerator)) ==>
        var a := old(accelerator).value;
        var burn := Tick(a.burnTime, duration);
        accelerator == (if burn.finished then None else Some(a.(burnTime := burn)))
      // negative gravity cancels this step's gravity exactly
      ensures Burning(old(accelerator)) && old(accelerator).value.accelerator.NegativeGravityFn? ==>
        velocity == old(velocity)
      // a randomizing policy adds its impulse on top of this step's gravity
      ensures Burning(old(accelerator)) && old(accelerator).value.accelerator.RandomizeAcceleratorFn? ==>
        var a := old(accelerator).value;
        velocity == Add(Add(old(velocity), Scale(Seconds(duration), GRAVITY)), Scale(a.thrust, Jitter(draw)))
    {
      var dt := Seconds(duration);
      velocity := Add(velocity, Scale(dt, GRAVITY));
      if accelerator.Some? {
        var a := accelerator.value;
        if !a.burnTime.finished {
          // Tick forward the burn time of the propulsion, then apply the policy.
          a := a.(burnTime := Tick(a.burnTime, duration));
          accelerator := Some(a);
          velocity := a.GetVelocity(velocity, dt, draw);
        }
        if a.burnTime.finished {
          accelerator := None;
        }
      }
    }
  }

  /** The five random numbers `straight_upward_moving_projectile` draws, in order. */
  datatype LaunchDraws = LaunchDraws(vx: real, vy: real, life: real, thrust: real, burn: real) {
    predicate Valid() {
      UnitDraw(vx) && UnitDraw(vy) && UnitDraw(life) && UnitDraw(thrust) && UnitDraw(burn)
    }
  }

  /** What `straight_upward_moving_projectile` promises of the rocket it makes:
      velocity, lifetime, thrust and burn time in their ranges, and a fresh
      negative-gravity burn. */
  predicate IsRocket(p: Projectile)
    reads p
  {
    && -25.0 <= p.velocity.x < 25.0 && 250.0 <= p.velocity.y < 300.0
    && 3 * NanosPerSecond <= p.life.duration < 4 * NanosPerSecond
    && p.life.elapsed == 0 && !p.life.finished
    && p.accelerator.Some? && p.accelerator.value.accelerator.NegativeGravityFn?
    && 1000.0 <= p.accelerator.value.thrust < 1500.0
    && NanosPerSecond <= p.accelerator.value.burnTime.duration < 3 * NanosPerSecond / 2
    && p.accelerator.value.burnTime.elapsed == 0 && !p.accelerator.value.burnTime.finished
    && p.color.None?
  }

  /** `straight_upward_moving_projectile(image)`: a rocket going up, with a
      negative-gravity burn whose zero-time pre-seed leaves the drawn velocity
      as it was. */
  method StraightUpwardMovingProjectile(image: ImageHandle, draws: LaunchDraws) returns (p: Projectile)
    requires draws.Valid()
    ensures p.velocity == Vec2(-25.0 + draws.vx * 50.0, 250.0 + draws.vy * 50.0)
    ensures IsRocket(p) && p.image == image
    ensures fresh(p)
  {
    var velocity := Vec2(-25.0 + draws.vx * 50.0, 250.0 + draws.vy * 50.0);
    var life := FromSeconds(3.0 + draws.life * 1.0);
    var thrust := 1000.0 + draws.thrust * 500.0;
    var burnTime := FromSeconds(1.0 + draws.burn * 0.5);
    var accelerator := Accelerator(NegativeGravityFn, burnTime, thrust);
    // negative gravity draws no random numbers, so any pair serves as `draw`
    velocity := accelerator.GetVelocity(velocity, 0.0, Vec2(0.0, 0.0));
    p := new Projectile(velocity, life, image, None, Some(accelerator));
  }

  /** A projectile without an accelerator, moving up at 100: one second of
      `accelerate` leaves it moving up at 40, its lifetime untouched. */
  method GravityOnlyStep(image: ImageHandle) returns (p: Projectile)
    ensures p.velocity == Vec2(0.0, 40.0) && p.accelerator.None? && p.life == FromSeconds(10.0)
  {
    p := new Projectile(Vec2(0.0, 100.0), FromSeconds(10.0), image, None, None);
    p.Accelerate(NanosPerSecond, Vec2(0.0, 0.0));
  }

  /** A one-second negative-gravity burn, then two steps: the first outlasts
      the burn, so it still cancels gravity and then drops the accelerator;
      the second is gravity only. */
  method BurnThenFall(image: ImageHandle, draw: Vec2) returns (p: Projectile)
    requires UnitDraws(draw)
    ensures p.velocity == Vec2(0.0, 40.0) && p.accelerator.None?
  {
    var burn := Accelerator(NegativeGravityFn, FromSeconds(1.0), 1000.0);
    p := new Projectile(Vec2(0.0, 100.0), FromSeconds(10.0), image, None, Some(burn));
    p.Accelerate(2 * NanosPerSecond, draw);
    assert p.velocity == Vec2(0.0, 100.0) && p.accelerator.None?;
    p.Accelerate(NanosPerSecond, draw);
  }
}
