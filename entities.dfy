/** The `entities` revision (`entities/mod.rs`), the one the game compiles.

    Here a projectile is a plain template value: it is copied into separate
    ECS components when it is spawned and never changed itself. Propulsion is
    a thrust along the velocity direction that lasts for a burn time;
    `normalize` (Bevy's `Vec2::normalize`) is a parameter about which nothing
    is assumed, and so is `cosSin`, the `(cos a, sin a)` of a spawn angle. */
module Entities {
  import opened Base
  import opened Vector
  import opened Timing

  const GRAVITY: Vec2 := Vec2(0.0, -60.0)

  /** `std::f32::consts::TAU`, written as the shortest decimal `f32` literal
      that denotes it (not its exact binary value). */
  const TAU: real := 6.2831855

  type Velocity = Vec2
  type Acceleration = Vec2
  type Rotation = real
  type Lifetime = Timer

  datatype Propulsion = Propulsion(thrust: real, burnTime: Timer)

  /** `Propulsion::default()`: no thrust and a zero-second burn, which the
      first tick of any length finishes. */
  function DefaultPropulsion(): (p: Propulsion)
    ensures p.thrust == 0.0 && p.burnTime.duration == 0 && p.burnTime.Valid()
    ensures forall delta: nat :: Tick(p.burnTime, delta).finished
  {
    Propulsion(0.0, FromSeconds(0.0))
  }

  datatype Projectile = Projectile(velocity: Velocity, life: Lifetime, acceleration: Acceleration,
                                   image: ImageHandle, color: Option<string>, propulsion: Option<Propulsion>)

  /** `get_thrust_acceleration(propulsion, velocity)`. */
  function ThrustAcceleration(propulsion: Propulsion, velocity: Velocity, normalize: Vec2 -> Vec2): (a: Vec2)
    // a spent (zero) thrust contributes nothing, whatever the direction
    ensures propulsion.thrust == 0.0 ==> a == Vec2(0.0, 0.0)
  {
    Scale(propulsion.thrust, normalize(velocity))
  }

  /** The five random numbers `straight_upward_moving_projectile` draws, in order. */
  datatype LaunchDraws = LaunchDraws(vx: real, vy: real, life: real, thrust: real, burn: real) {
    predicate Valid() {
      UnitDraw(vx) && UnitDraw(vy) && UnitDraw(life) && UnitDraw(thrust) && UnitDraw(burn)
    }
  }

  /** `straight_upward_moving_projectile(image)`: a rocket whose acceleration
      is its thrust along its velocity plus gravity. */
  function StraightUpwardMovingProjectile(image: ImageHandle, draws: LaunchDraws, normalize: Vec2 -> Vec2)
    : (p: Projectile)
    requires draws.Valid()
    ensures -20.0 <= p.velocity.x < 20.0 && 250.0 <= p.velocity.y < 300.0 && p.velocity.y > 0.0
    ensures 2 * NanosPerSecond <= p.life.duration < 4 * NanosPerSecond && p.life.elapsed == 0 && !p.life.finished
    ensures p.propulsion.Some?
    ensures 100.0 <= p.propulsion.value.thrust < 150.0
    ensures NanosPerSecond / 2 <= p.propulsion.value.burnTime.duration < NanosPerSecond
    ensures p.propulsion.value.burnTime.elapsed == 0 && !p.propulsion.value.burnTime.finished
    ensures p.acceleration == Add(ThrustAcceleration(p.propulsion.value, p.velocity, normalize), GRAVITY)
    ensures p.image == image && p.color.None?
  {
    var velocity := Vec2(-20.0 + draws.vx * 40.0, 250.0 + draws.vy * 50.0);
    var life := FromSeconds(2.0 + draws.life * 2.0);
    var propulsion := Propulsion(100.0 + draws.thrust * 50.0, FromSeconds(0.5 + draws.burn * 0.5));
    var propVec := ThrustAcceleration(propulsion, velocity, normalize);
    var acceleration := Add(propVec, GRAVITY);
    Projectile(velocity, life, acceleration, image, None, Some(propulsion))
  }

  datatype Shells = Shells(shells: seq<Shell>)

  datatype Shell = Shell(projectile: Projectile, shells: Option<Shells>)

  /** `Shells::default()`. */
  function DefaultShells(): (s: Shells)
    ensures |s.shells| == 0
  {
    Shells([])
  }

  /** The random numbers one bloomed child draws: speed, lifetime and angle. */
  datatype ChildDraws = ChildDraws(speed: real, life: real, angle: real) {
    predicate Valid() {
      UnitDraw(speed) && UnitDraw(life) && UnitDraw(angle)
    }
  }

  /** The speed of a bloomed child. */
  function ChildSpeed(d: ChildDraws): (speed: real)
    requires d.Valid()
    ensures 50.0 <= speed < 100.0
  {
    50.0 + d.speed * 50.0
  }

  /** The number of children `blooming_shells` makes, whatever `number` says. */
  const BloomCount: nat := 20

  /** `blooming_shells(image, projectile_in, number)`: twenty leaves that fall
      under gravity alone. Both `projectileIn` and `number` are ignored, as in
      the source. */
  method BloomingShells(image: ImageHandle, projectileIn: Option<Projectile>, number: Option<i32>,
                        draws: seq<ChildDraws>, cosSin: real -> Vec2)
    returns (shells: seq<Shell>)
    requires BloomCount <= |draws|
    requires forall k :: 0 <= k < |draws| ==> draws[k].Valid()
    ensures |shells| == 20
    ensures forall k :: 0 <= k < |shells| ==> IsBloomedChild(shells[k], image, draws[k], cosSin)
  {
    var acceleration := GRAVITY;
    shells := [];
    for i := 0 to BloomCount
      invariant |shells| == i
      invariant forall k :: 0 <= k < i ==> IsBloomedChild(shells[k], image, draws[k], cosSin)
    {
      var d := draws[i];
      var speed := ChildSpeed(d);
      var life := FromSeconds(1.5 + d.life * 2.0);
      var angle := TAU * d.angle;
      var velocity := Scale(speed, cosSin(angle));
      var projectile := Projectile(velocity, life, acceleration, image, None, None);
      shells := shells + [Shell(projectile, None)];
    }
  }

  /** What `blooming_shells` promises of each child: a leaf without
      propulsion, under gravity only, moving at its drawn speed along its drawn
      angle, living 1.5 to 3.5 seconds. */
  predicate IsBloomedChild(s: Shell, image: ImageHandle, d: ChildDraws, cosSin: real -> Vec2)
    requires d.Valid()
  {
    && s.shells.None?
    && s.projectile.propulsion.None?
    && s.projectile.acceleration == GRAVITY
    && s.projectile.image == image && s.projectile.color.None?
    && s.projectile.velocity == Scale(ChildSpeed(d), cosSin(TAU * d.angle))
    && 3 * NanosPerSecond / 2 <= s.projectile.life.duration < 7 * NanosPerSecond / 2
    && s.projectile.life.elapsed == 0 && !s.projectile.life.finished
  }

  /** `ClassicFirework(asset_server)`: a rocket carrying twenty leaves. */
  method ClassicFirework(load: string -> ImageHandle, launch: LaunchDraws, draws: seq<ChildDraws>,
                         normalize: Vec2 -> Vec2, cosSin: real -> Vec2)
    returns (shell: Shell)
    requires launch.Valid() && BloomCount <= |draws|
    requires forall k :: 0 <= k < |draws| ==> draws[k].Valid()
    ensures shell.projectile == StraightUpwardMovingProjectile(load("bubble.png"), launch, normalize)
    ensures shell.shells.Some? && |shell.shells.value.shells| == 20
    ensures forall k :: 0 <= k < 20 ==>
      IsBloomedChild(shell.shells.value.shells[k], load("bubble.png"), draws[k], cosSin)
  {
    var projectile := StraightUpwardMovingProjectile(load("bubble.png"), launch, normalize);
    var shells := BloomingShells(load("bubble.png"), None, None, draws, cosSin);
    shell := Shell(projectile, Some(Shells(shells)));
  }
}
