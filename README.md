# Fireworks simulation core, in Dafny

A model of the simulation logic of a small Bevy fireworks toy. A firework is a
tree of shells: a rocket carrying child shells that burst out of it when its
lifetime runs out. Each shell is a projectile moving under gravity, plus an
optional one-shot acceleration (a thrust, or a policy) that lasts for a burn
time. The engine is abstracted away: the ECS world is a sequence of entity
records, frame times are whole nanoseconds, random numbers are parameters in
[0, 1), and image handles are opaque values.

The repository holds two revisions, and both are modelled:

- `src/entities` with `src/main.rs` — the revision the game compiles. Modules
  `Entities` (`entities.dfy`) and `Systems` (`systems.dfy`). A projectile is a
  template value. `spawn_shells` turns each shell into an entity. `movement`
  runs the thrust, the Euler step and the bounce at the window's edges. `life`
  despawns an entity whose lifetime is over and spawns its children where it
  was.
- `src/shells` — the newer revision, not wired into the game. Modules
  `ShellsMovement`, `ShellsAccelerator`, `ShellsProjectile` and
  `ShellsRecipes`. A projectile carries an optional `Accelerator`: a policy
  (`negative_gravity` or `randomize_accelerator`), a thrust and a burn timer.
  `Projectile::accelerate` applies gravity, then runs the policy while it burns
  and drops it once the burn is over.

Shared pieces: `Base` (`Option`, `i32`, image handles, random draws), `Vector`
(`Vec2` over exact reals) and `Timing` (Bevy's non-repeating `Timer`).

How the model is built:

- Rust values that are cloned and never shared become Dafny datatypes:
  `Timer`, `Accelerator`, `Shell`, `Shells`, the `entities` projectile and the
  ECS entity records. A class would make the 40 children of a recipe share one
  burn timer, where the source gives each child its own copy.
- The `shells` projectile is changed in place by `accelerate`, so it is a
  class. `Projectile.Accelerate` modifies only its `velocity` and `accelerator`
  fields.
- A policy takes the velocity by mutable reference. It is a method that
  receives the old velocity and returns the new one.
- The ECS world is the class `Systems.World`, which holds a sequence of
  entities. `World.Movement` updates every entity in place.
  `World.Life` collects its spawn commands and applies them after the loop,
  as Bevy applies deferred commands. Both are proved against specification
  functions: `Moved` for one entity, and
  `LifeStep = Survivors ++ Offspring` for the population. `MovedMany` runs
  `movement` over several frames.
- Random draws are records such as `LaunchDraws` and `ChildDraws`. Each field
  stands for a `rand::random::<f32>()` the source may draw, in the order it
  draws them, and is required to lie in [0, 1). The `kick` pair of
  `ChildDraws` is used only by a randomizing policy; under `negative_gravity`,
  and for the dummy `Vec2(0.0, 0.0)` that `straight_upward_moving_projectile`
  passes, nothing is drawn.
- `Vec2::normalize`, the `(cos, sin)` of a spawn angle, and
  `asset_server.load` are the function parameters `normalize`, `cosSin` and
  `load`. Nothing is assumed about them.
- `Timer` follows Bevy 0.8, which the source uses. `finished` is a flag that
  only `tick` sets. A tick that reaches the duration clamps `elapsed` to it.
  Ticking a finished timer does nothing. `Timer::from_seconds` is assumed to
  truncate to whole nanoseconds (see `## Left out`).

Behaviour of the code worth stating, as the model follows it:

- A zero-second timer is not finished until it has been ticked once (Bevy
  0.8's `Timer`).
- `accelerate` does not advance the lifetime, and nothing else in the `shells`
  revision does. The `life` system in `main.rs` ticks only the `entities`
  revision's `Lifetime`.
- `movement` bounces entities at the window's edges.
- The `shells` recipes use `negative_gravity` (classic, 40 children) and
  `randomize_accelerator` (bees, 50 children). Neither uses the exponential
  policy.
- The game has no lookup of a recipe by name, so there is no lookup failure
  to model.
- The thrust `movement` takes out is `thrust · normalize(current velocity)`.
  The model keeps this as written. It undoes the thrust added at launch only
  if the direction of flight has not changed.

## Model

| member | source | states |
|---|---|---|
| `Timing.FromSeconds` | src/shells/projectile.rs:37 | the duration is the number of seconds truncated to whole nanoseconds (an assumption about the toolchain); a new timer has run for no time and is not finished |
| `Timing.Seconds` | src/shells/projectile.rs:18-23 | `Duration::as_secs_f32` as an exact real: never negative, and the seconds times 10⁹ give back the nanoseconds |
| `Timing.Tick` | src/main.rs:125-126 | a tick leaves a finished timer alone; it finishes exactly when the elapsed time plus the tick reaches the duration; otherwise it adds the tick to the elapsed time; the elapsed time never decreases and never passes the duration |
| `ShellsAccelerator.Jitter` | src/shells/accelerator.rs:12-15 | each component of the random direction `1 - 2r` lies in (-1, 1] |
| `ShellsAccelerator.NegativeGravity` | src/shells/accelerator.rs:6-8 | adding this step's gravity back gives the old velocity: x is unchanged, y rises by `60·dt`, and with `dt = 0` nothing changes; thrust and burn time play no part |
| `ShellsAccelerator.RandomizeAccelerator` | src/shells/accelerator.rs:10-17 | adds `thrust·(1-2r1, 1-2r2)`; for `thrust >= 0` each component moves by at most `thrust` either way, and by more than `-thrust` when `thrust > 0`; the time step plays no part |
| `ShellsAccelerator.JitterBound` | src/shells/accelerator.rs:11-16 | an impulse `thrust·j` with `j` in (-1, 1] lies in [-thrust, thrust], and above `-thrust` for positive thrust |
| `ShellsAccelerator.Accelerator.GetVelocity` | src/shells/accelerator.rs:33-36 | runs the stored policy with the accelerator's own thrust: negative gravity for that kind, the random impulse for the other |
| `ShellsProjectile.Projectile.Accelerate` | src/shells/projectile.rs:17-29 | only velocity and accelerator change. Without a burning policy: gravity only, and the accelerator ends up `None`. With one: its timer is ticked by `duration`, it is kept only if still unfinished, negative gravity leaves the velocity exactly as it was, and a random policy adds its impulse on top of gravity. Afterwards either no accelerator is attached or its burn timer is unfinished |
| `ShellsProjectile.StraightUpwardMovingProjectile` | src/shells/projectile.rs:32-53 | the velocity is the drawn one (the zero-time pre-seed is a no-op): x in [-25, 25), y in [250, 300); lifetime [3, 4) s; a fresh negative-gravity burn with thrust in [1000, 1500) and burn time in [1, 1.5) s; the image is passed through; the projectile object is newly allocated |
| `ShellsProjectile.GravityOnlyStep` | src/shells/projectile.rs:17-19 | no accelerator, velocity (0, 100) and a one-second step give velocity (0, 40), with the lifetime untouched |
| `ShellsProjectile.BurnThenFall` | src/shells/projectile.rs:18-27 | a step that outlasts the burn still cancels gravity and then drops the accelerator; the next step is gravity only |
| `ShellsRecipes.DefaultShells` | src/shells/mod.rs:15-19 | no children |
| `ShellsRecipes.ChildSpeed` | src/shells/mod.rs:36 | a bloomed child's speed lies in [25, 50) |
| `ShellsRecipes.BloomCount` | src/shells/mod.rs:34-35 | `number.unwrap_or(20)` children, and none when that is not positive |
| `ShellsRecipes.BloomingShells` | src/shells/mod.rs:27-54 | exactly `BloomCount(number)` children. Each is a leaf with its own newly allocated projectile object (no two children share one), a copy of the given accelerator and the given image, and a lifetime in [2, 3) s. Its velocity is its speed along its angle, one zero-time pre-seed applied: unchanged under negative gravity, plus one random impulse under the random policy |
| `ShellsRecipes.BeesFirework` | src/shells/mod.rs:56-70 | a rocket with `Some` of exactly 50 leaf children. The children share one random-impulse accelerator with thrust in [8, 10) and burn time in [1.5, 2) s that has not started, and live [2, 3) s. Each starts with one random kick. The rocket and every child own newly allocated, pairwise distinct projectile objects. Images come from `firework.png` and `sodium.png` |
| `ShellsRecipes.ClassicFirework` | src/shells/mod.rs:72-86 | a rocket with `Some` of exactly 40 leaf children. The children share one negative-gravity accelerator with thrust in [8, 10) and burn time in [1.5, 2) s that has not started, and live [2, 3) s. Their pre-seed changes nothing. The rocket and every child own newly allocated, pairwise distinct projectile objects. Images come from `firework.png` and `copper.png` |
| `ShellsRecipes.BloomedChild` | src/shells/mod.rs:36-51 | one pass of the loop: a leaf on a new projectile object, with no colour, a copy of the accelerator and the image, an unstarted lifetime in [2, 3) s, and its speed along its angle, pre-seeded once with dt = 0 (unchanged under negative gravity, plus one random kick under the random policy) |
| `Entities.DefaultPropulsion` | src/entities/mod.rs:26-33 | thrust 0 and a zero-second burn timer, which any first tick finishes |
| `Entities.StraightUpwardMovingProjectile` | src/entities/mod.rs:48-65 | velocity x in [-20, 20) and y in [250, 300), so it goes up; lifetime [2, 4) s; propulsion `Some` with thrust in [100, 150) and burn time in [0.5, 1) s; acceleration is thrust along the velocity plus gravity |
| `Entities.DefaultShells` | src/entities/mod.rs:72-76 | no children |
| `Entities.ChildSpeed` | src/entities/mod.rs:88 | a bloomed child's speed lies in [50, 100) |
| `Entities.BloomingShells` | src/entities/mod.rs:84-106 | always exactly 20 children, whatever `number` says. Each is a leaf without propulsion, with acceleration `GRAVITY` and the given image, moving at its speed along its angle, living [1.5, 3.5) s |
| `Entities.ClassicFirework` | src/entities/mod.rs:108-115 | the root is the upward rocket, with `Some` of exactly 20 bloomed leaf children, all with the `bubble.png` image |
| `Systems.EntityOf` | src/main.rs:59-74 | the entity sits at the given position and carries the shell's velocity, lifetime, acceleration and image. A shell without propulsion gets thrust 0 and a zero-second burn. A shell without children gets empty `Shells` |
| `Systems.Spawned` | src/main.rs:57-63 | one entity per shell, in order, each at the given position |
| `Systems.SpawnShells` | src/main.rs:57-76 | appends exactly the spawn commands for the shells to the queue |
| `Entities.ThrustAcceleration` | src/entities/mod.rs:44-46 | by definition thrust times `normalize(velocity)`; a zero thrust gives the zero vector, whatever the direction |
| `Systems.Moved` | src/main.rs:88-115 | by definition one entity's frame: tick the burn timer if unfinished; once finished, take a positive thrust times the normalised pre-step velocity out of the acceleration and zero the thrust; update velocity, then position from the new velocity; then bounce each axis at the window's edges. Its properties are the `Movement...` lemmas |
| `Systems.Expired` | src/main.rs:125-126 | an entity's lifetime is over after the tick exactly when it already was, or when its elapsed time plus the tick reaches the duration |
| `Systems.World.Spawn` | src/main.rs:52 | the world gains exactly the entities spawned for the shells |
| `Systems.Survivors` | src/main.rs:124-130 | by definition the unexpired entities in their order, each with its lifetime ticked; characterised by `SurvivorsMembers` |
| `Systems.Offspring` | src/main.rs:124-130 | by definition, for each expired entity in order, its child shells spawned at its position; characterised by `OffspringMembers` |
| `Systems.LifeStep` | src/main.rs:119-132 | by definition the population after `life` and its deferred commands: the survivors followed by the offspring |
| `Systems.World.Movement` | src/main.rs:78-117 | the number of entities is unchanged, and each entity becomes `Moved` of itself |
| `Systems.World.Life` | src/main.rs:119-132 | the world becomes the ticked survivors followed by the children of every expired entity |
| `Systems.MovementBounce` | src/main.rs:105-115 | past the top edge the y velocity is not upward, past the bottom edge not downward, and likewise for x at the side edges |
| `Systems.MovementEuler` | src/main.rs:101-104 | the velocity is advanced by the acceleration and the position by the new velocity. The bounce only flips the sign of a component whose edge was crossed. Lifetime, shells and image are not touched |
| `Systems.MovementBurnTimer` | src/main.rs:89-92 | the burn timer is ticked only while unfinished; a finished one stays as it is |
| `Systems.MovementThrustRemoval` | src/main.rs:93-100 | once the burn has finished, a positive thrust along the velocity is subtracted from the acceleration and the thrust becomes 0. Otherwise both stay as they were. After the step a finished burn has no positive thrust |
| `Systems.MovedMany` | src/main.rs:82-117 | by definition `movement` applied to one entity once per frame, for each frame time in order |
| `Systems.SpentThrustStaysSpent` | src/main.rs:93-100 | once spent, the thrust is never removed again: any number of later frames leaves acceleration and thrust unchanged |
| `Systems.DefaultPropulsionNeverThrusts` | src/main.rs:93-100 | an entity with default propulsion keeps its acceleration over any number of frames |
| `Systems.GravityOnlyFrame` | src/main.rs:101-104 | velocity (0, 100) under gravity alone moves at (0, 40) after a one-second frame and has risen by 40 |
| `Systems.LifeOfOne` | src/main.rs:124-131 | an expired entity is replaced by its children at its position; any other stays, with only its lifetime ticked |
| `Systems.SurvivorsAppend` | src/main.rs:124-131 | the kept entities of a population are those of its parts, in order |
| `Systems.OffspringAppend` | src/main.rs:126-130 | the spawned entities of a population are those of its parts, in order |
| `Systems.SurvivorsMembers` | src/main.rs:124-131 | an entity is kept exactly when it is an unexpired old entity with its lifetime ticked; no kept entity has a finished lifetime |
| `Systems.OffspringMembers` | src/main.rs:126-130 | a spawned entity is, exactly, a child shell of an expired entity, made at that entity's position with the template's untouched timers, so it is not ticked in the frame that spawned it |
| `Systems.LeavesOnlyDespawn` | src/main.rs:127-129 | when every entity is a leaf, `life` only despawns and adds nothing |

## Left out

- `main`, `setup` and `handle_mouse_events`: window, camera and mouse input belong to the engine. `World.Spawn` stands for the spawn a click makes.
- Bevy's `Query`/`Commands` mechanics: entity ids, archetype storage, and the order of entities in a query. The model fixes one order: survivors, then spawned entities.
- The order in which Bevy runs `movement` and `life` within a frame. The two are modelled as separate steps.
- `exponential_accelerator`: it needs `exp` and `normalize()`.
- `Vec2::normalize` of a zero velocity, which gives NaN in `get_thrust_acceleration`: `normalize` is a parameter, so the model says nothing about it.
- `f32` arithmetic: values are exact reals. Rounding is not modelled, including the chance that a drawn value rounds up to the top of its range. `TAU` is the shortest decimal literal that reads back as the `f32` τ, not that `f32`'s exact value.
- The statistical distribution of random draws. Only the range [0, 1) of each draw is modelled.
- The `z` coordinate, scale and rotation of `Transform`: they never change. The `Rotation` newtype and `MainCamera` component have no behaviour.
- Asset loading: handles are opaque and only passed through.
- `Timing.FromSeconds`: assumes `Duration::from_secs_f32` truncates to whole nanoseconds, as older Rust toolchains do. Newer ones round to the nearest nanosecond, ties to even, so a real duration can be 1 ns longer than the model's. The strict upper bounds on durations ("< 4 s" and so on) then hold only up to that 1 ns; nothing in the source pins a toolchain.
- `ShellsProjectile.Projectile.Accelerate`: it receives the random pair of a randomizing policy as the parameter `draw`, even when the attached policy draws nothing.
- `ShellsRecipes.BeesFirework` and `ShellsRecipes.ClassicFirework`: the root rocket's exact velocity is stated by `StraightUpwardMovingProjectile`. These recipes state only that the root is a rocket (`IsRocket`).
