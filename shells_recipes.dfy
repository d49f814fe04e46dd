/** Shell trees and firework recipes of the `shells` revision (`shells/mod.rs`).

    A recipe builds the whole tree before it enters the simulation. Random
    numbers are parameters (records of values in [0, 1)), `asset_server.load`
    is the parameter `load`, and `(cos a, sin a)` of a spawn angle is the
    parameter `cosSin`, about which nothing is assumed. */
module ShellsRecipes {
  import opened Base
  import opened Vector
  import opened Timing
  import opened ShellsMovement
  import opened ShellsAccelerator
  import opened ShellsProjectile

  /** `std::f32::consts::TAU`, written as the shortest decimal `f32` literal
      that denotes it (not its exact binary value). */
  const TAU: real := 6.2831855

  datatype Shells = Shells(shells: seq<Shell>)

  datatype Shell = Shell(projectile: Projectile, shells: Option<Shells>)

  /** `Shells::default()`. */
  function DefaultShells(): (s: Shells)
    ensures |s.shells| == 0
  {
    Shells([])
  }

  /** The random numbers one bloomed child draws: its speed, its lifetime, its
      angle, and the pair its accelerator's zero-time pre-seed call consumes
      (only a randomizing policy uses that pair). */
  datatype ChildDraws = ChildDraws(speed: real, life: real, angle: real, kick: Vec2) {
    predicate Valid() {
      UnitDraw(speed) && UnitDraw(life) && UnitDraw(angle) && UnitDraws(kick)
    }
  }

  /** The speed of a bloomed child. */
  function ChildSpeed(d: ChildDraws): (speed: real)
    requires d.Valid()
    ensures 25.0 <= speed < 50.0
  {
    25.0 + d.speed * 25.0
  }

  /** The number of children `blooming_shells` makes: `number.unwrap_or(20)`,
      and none for a value that is not positive (`0..n` is then empty). */
  function BloomCount(number: Option<i32>): (n: nat)
    ensures number.None? ==> n == 20
    ensures number.Some? ==> n == if number.value <= 0 then 0 else number.value as int
  {
    var n := number.GetOr(20);
    if n <= 0 then 0 else n as nat
  }

  /** `blooming_shells(image, projectile_in, number, accelerator)`: leaves that
      fly off in all directions, each carrying a copy of `accelerator`. The
      argument `projectileIn` is ignored, as in the source. */
  method BloomingShells(image: ImageHandle, projectileIn: Option<Projectile>, number: Option<i32>,
                        accelerator: Accelerator, draws: seq<ChildDraws>, cosSin: real -> Vec2)
    returns (shells: seq<Shell>)
    requires BloomCount(number) <= |draws|
    requires forall k :: 0 <= k < |draws| ==> draws[k].Valid()
    ensures |shells| == BloomCount(number)
    ensures forall k :: 0 <= k < |shells| ==> shells[k].shells.None?
    ensures forall k :: 0 <= k < |shells| ==>
      shells[k].projectile.accelerator == Some(accelerator) &&
      shells[k].projectile.image == image && shells[k].projectile.color.None?
    ensures forall k :: 0 <= k < |shells| ==>
      var life := shells[k].projectile.life;
      2 * NanosPerSecond <= life.duration < 3 * NanosPerSecond && life.elapsed == 0 && !life.finished
    // the velocity a child starts with: speed along the drawn angle, then one pre-seed call with dt = 0
    ensures forall k :: 0 <= k < |shells| && accelerator.accelerator.NegativeGravityFn? ==>
      shells[k].projectile.velocity == Scale(ChildSpeed(draws[k]), cosSin(TAU * draws[k].angle))
    ensures forall k :: 0 <= k < |shells| && accelerator.accelerator.RandomizeAcceleratorFn? ==>
      shells[k].projectile.velocity ==
        Add(Scale(ChildSpeed(draws[k]), cosSin(TAU * draws[k].angle)), Scale(accelerator.thrust, Jitter(draws[k].kick)))
    // every child owns a new projectile object, shared with no other child
    ensures forall k :: 0 <= k < |shells| ==> fresh(shells[k].projectile)
    ensures forall j, k :: 0 <= j < k < |shells| ==> shells[j].projectile != shells[k].projectile
  {
    shells := [];
    var numberShells := BloomCount(number);
    for i := 0 to numberShells
      invariant |shells| == i
      invariant forall k :: 0 <= k < i ==> shells[k].shells.None?
      invariant forall k :: 0 <= k < i ==>
        shells[k].projectile.accelerator == Some(accelerator) &&
        shells[k].projectile.image == image && shells[k].projectile.color.None?
      invariant forall k :: 0 <= k < i ==>
        var life := shells[k].projectile.life;
        2 * NanosPerSecond <= life.duration < 3 * NanosPerSecond && life.elapsed == 0 && !life.finished
      invariant forall k :: 0 <= k < i && accelerator.accelerator.NegativeGravityFn? ==>
        shells[k].projectile.velocity == Scale(ChildSpeed(draws[k]), cosSin(TAU * draws[k].angle))
      invariant forall k :: 0 <= k < i && accelerator.accelerator.RandomizeAcceleratorFn? ==>
        shells[k].projectile.velocity ==
          Add(Scale(ChildSpeed(draws[k]), cosSin(TAU * draws[k].angle)), Scale(accelerator.thrust, Jitter(draws[k].kick)))
      invariant forall k :: 0 <= k < i ==> fresh(shells[k].projectile)
      invariant forall j, k :: 0 <= j < k < i ==> shells[j].projectile != shells[k].projectile
    {
      var child := BloomedChild(image, accelerator, draws[i], cosSin);
      // the earlier children were allocated before `child.projectile`
      assert forall k :: 0 <= k < i ==> shells[k].projectile != child.projectile;
      shells := shells + [child];
    }
  }

  /** One pass of the loop in `blooming_shells`: a leaf whose projectile is
      launched at its speed along its angle and pre-seeded once with dt = 0. */
  method BloomedChild(image: ImageHandle, accelerator: Accelerator, d: ChildDraws, cosSin: real -> Vec2)
    returns (child: Shell)
    requires d.Valid()
    ensures child.shells.None? && fresh(child.projectile)
    ensures child.projectile.accelerator == Some(accelerator) &&
      child.projectile.image == image && child.projectile.color.None?
    ensures var life := child.projectile.life;
      2 * NanosPerSecond <= life.duration < 3 * NanosPerSecond && life.elapsed == 0 && !life.finished
    ensures accelerator.accelerator.NegativeGravityFn? ==>
      child.projectile.velocity == Scale(ChildSpeed(d), cosSin(TAU * d.angle))
    ensures accelerator.accelerator.RandomizeAcceleratorFn? ==>
      child.projectile.velocity ==
        Add(Scale(ChildSpeed(d), cosSin(TAU * d.angle)), Scale(accelerator.thrust, Jitter(d.kick)))
  {
    var speed := ChildSpeed(d);
    var life := FromSeconds(2.0 + d.life * 1.0);
    var angle := TAU * d.angle;
    var velocity := Scale(speed, cosSin(angle));
    velocity := accelerator.GetVelocity(velocity, 0.0, d.kick);
    var projectile := new Projectile(velocity, life, image, None, Some(accelerator));
    child := Shell(projectile, None);
  }

  /** The random numbers of a whole recipe: the rocket's, the children's shared
      thrust and burn time, and each child's own. */
  datatype RecipeDraws = RecipeDraws(launch: LaunchDraws, thrust: real, burn: real, children: seq<ChildDraws>) {
    predicate Valid() {
      launch.Valid() && UnitDraw(thrust) && UnitDraw(burn) &&
      forall k :: 0 <= k < |children| ==> children[k].Valid()
    }
  }

  /** `bees_firework(asset_server)`: a rocket that bursts into 50 children that
      jitter about. */
  method BeesFirework(load: string -> ImageHandle, draws: RecipeDraws, cosSin: real -> Vec2) returns (shell: Shell)
    requires draws.Valid() && 50 <= |draws.children|
    ensures IsRocket(shell.projectile) && shell.projectile.image == load("firework.png")
    ensures shell.shells.Some? && |shell.shells.value.shells| == 50
    // the rocket and every child own new projectile objects, all distinct
    ensures fresh(shell.projectile)
    ensures forall k :: 0 <= k < 50 ==>
      fresh(shell.shells.value.shells[k].projectile) && shell.shells.value.shells[k].projectile != shell.projectile
    ensures forall j, k :: 0 <= j < k < 50 ==>
      shell.shells.value.shells[j].projectile != shell.shells.value.shells[k].projectile
    ensures forall k :: 0 <= k < 50 ==>
      var child := shell.shells.value.shells[k];
      child.shells.None? && child.projectile.image == load("firework_elements/sodium.png") &&
      child.projectile.color.None? && child.projectile.accelerator.Some? &&
      child.projectile.accelerator.value.accelerator.RandomizeAcceleratorFn? &&
      child.projectile.accelerator == shell.shells.value.shells[0].projectile.accelerator
    ensures forall k :: 0 <= k < 50 ==>
      var a := shell.shells.value.shells[k].projectile.accelerator.value;
      8.0 <= a.thrust < 10.0 &&
      3 * NanosPerSecond / 2 <= a.burnTime.duration < 2 * NanosPerSecond &&
      a.burnTime.elapsed == 0 && !a.burnTime.finished
    ensures forall k :: 0 <= k < 50 ==>
      var life := shell.shells.value.shells[k].projectile.life;
      2 * NanosPerSecond <= life.duration < 3 * NanosPerSecond && life.elapsed == 0 && !life.finished
    // the pre-seed call gives each child one random kick on top of its drawn speed and angle
    ensures forall k :: 0 <= k < 50 ==>
      var child := shell.shells.value.shells[k].projectile;
      child.velocity ==
        Add(Scale(ChildSpeed(draws.children[k]), cosSin(TAU * draws.children[k].angle)),
            Scale(child.accelerator.value.thrust, Jitter(draws.children[k].kick)))
  {
    var projectile := StraightUpwardMovingProjectile(load("firework.png"), draws.launch);
    var thrust := 8.0 + draws.thrust * 2.0;
    var burnTime := FromSeconds(1.5 + draws.burn * 0.5);
    var accelerator := Accelerator(RandomizeAcceleratorFn, burnTime, thrust);
    var shells := BloomingShells(load("firework_elements/sodium.png"), None, Some(50), accelerator, draws.children, cosSin);
    shell := Shell(projectile, Some(Shells(shells)));
  }

  /** `classic_firework(asset_server)`: a rocket that bursts into 40 children
      that float, their negative-gravity burn cancelling gravity until it runs
      out. */
  method ClassicFirework(load: string -> ImageHandle, draws: RecipeDraws, cosSin: real -> Vec2) returns (shell: Shell)
    requires draws.Valid() && 40 <= |draws.children|
    ensures IsRocket(shell.projectile) && shell.projectile.image == load("firework.png")
    ensures shell.shells.Some? && |shell.shells.value.shells| == 40
    // the rocket and every child own new projectile objects, all distinct
    ensures fresh(shell.projectile)
    ensures forall k :: 0 <= k < 40 ==>
      fresh(shell.shells.value.shells[k].projectile) && shell.shells.value.shells[k].projectile != shell.projectile
    ensures forall j, k :: 0 <= j < k < 40 ==>
      shell.shells.value.shells[j].projectile != shell.shells.value.shells[k].projectile
    ensures forall k :: 0 <= k < 40 ==>
      var child := shell.shells.value.shells[k];
      child.shells.None? && child.projectile.image == load("firework_elements/copper.png") &&
      child.projectile.color.None? && child.projectile.accelerator.Some? &&
      child.projectile.accelerator.value.accelerator.NegativeGravityFn? &&
      child.projectile.accelerator == shell.shells.value.shells[0].projectile.accelerator
    ensures forall k :: 0 <= k < 40 ==>
      var a := shell.shells.value.shells[k].projectile.accelerator.value;
      8.0 <= a.thrust < 10.0 &&
      3 * NanosPerSecond / 2 <= a.burnTime.duration < 2 * NanosPerSecond &&
      a.burnTime.elapsed == 0 && !a.burnTime.finished
    ensures forall k :: 0 <= k < 40 ==>
      var life := shell.shells.value.shells[k].projectile.life;
      2 * NanosPerSecond <= life.duration < 3 * NanosPerSecond && life.elapsed == 0 && !life.finished
    // the pre-seed call leaves each child moving at its drawn speed along its drawn angle
    ensures forall k :: 0 <= k < 40 ==>
      shell.shells.value.shells[k].projectile.velocity ==
        Scale(ChildSpeed(draws.children[k]), cosSin(TAU * draws.children[k].angle))
  {
    var projectile := StraightUpwardMovingProjectile(load("firework.png"), draws.launch);
    var thrust := 8.0 + draws.thrust * 2.0;
    var burnTime := FromSeconds(1.5 + draws.burn * 0.5);
    var accelerator := Accelerator(NegativeGravityFn, burnTime, thrust);
    var shells := BloomingShells(load("firework_elements/copper.png"), None, Some(40), accelerator, draws.children, cosSin);
    shell := Shell(projectile, Some(Shells(shells)));
  }
}
