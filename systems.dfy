/** The ECS systems of `main.rs`: `spawn_shells`, `movement` and `life`, over
    the `entities` revision.

    The ECS world is a sequence of entity records, one per live entity, each
    holding that entity's components. `Commands` are deferred: what a system
    spawns joins the world after the system has run over every entity, and
    that is when its despawns take effect. A new world lists the surviving
    entities in their old order, then the spawned ones in the order they were
    spawned; the ECS itself promises no order. */
module Systems {
  import opened Base
  import opened Vector
  import opened Timing
  import opened Entities

  const HEIGHT: real := 1440.0
  const WIDTH: real := 2560.0

  /** The components of one entity. `translation` is the x and y of its
      `Transform` (z stays 0, and the scale of 2 and zero rotation never change). */
  datatype Entity = Entity(translation: Vec2, velocity: Velocity, life: Lifetime, acceleration: Acceleration,
                           propulsion: Propulsion, shells: Shells, image: ImageHandle)

  /** The entity `spawn_shells` makes of one shell at a position. */
  function EntityOf(shell: Shell, position: Vec2): (e: Entity)
    ensures e.translation == position && e.image == shell.projectile.image
    ensures e.velocity == shell.projectile.velocity && e.life == shell.projectile.life
    ensures e.acceleration == shell.projectile.acceleration
    ensures shell.projectile.propulsion.Some? ==> e.propulsion == shell.projectile.propulsion.value
    ensures shell.projectile.propulsion.None? ==> e.propulsion.thrust == 0.0 && e.propulsion.burnTime.duration == 0
    ensures shell.shells.Some? ==> e.shells == shell.shells.value
    ensures shell.shells.None? ==> e.shells.shells == []
  {
    Entity(position, shell.projectile.velocity, shell.projectile.life, shell.projectile.acceleration,
           shell.projectile.propulsion.GetOr(DefaultPropulsion()), shell.shells.GetOr(DefaultShells()),
           shell.projectile.image)
  }

  /** The entities spawned for a list of shells at one position: one per
      shell, in order, all at that position. */
  function Spawned(position: Vec2, shells: seq<Shell>): (es: seq<Entity>)
    ensures |es| == |shells|
    ensures forall k :: 0 <= k < |es| ==> es[k] == EntityOf(shells[k], position)
    ensures forall k :: 0 <= k < |es| ==> es[k].translation == position
  {
    if shells == [] then [] else [EntityOf(shells[0], position)] + Spawned(position, shells[1..])
  }

  /** `spawn_shells(commands, position, shells)`: queues one spawn command per shell. */
  method SpawnShells(commands: seq<Entity>, position: Vec2, shells: seq<Shell>) returns (commands': seq<Entity>)
    ensures commands' == commands + Spawned(position, shells)
  {
    commands' := commands;
    for i := 0 to |shells|
      invariant commands' == commands + Spawned(position, shells[..i])
    {
      assert Spawned(position, shells[..i + 1]) == Spawned(position, shells[..i]) + [EntityOf(shells[i], position)];
      commands' := commands' + [EntityOf(shells[i], position)];
    }
    assert shells[..|shells|] == shells;
  }

  /** `movement` on one entity: the burn timer runs while unfinished; once it
      has finished, a positive thrust is taken out of the acceleration and set
      to zero; then the explicit Euler step, velocity first and position from
      the new velocity; then the bounce at the window's edges. */
  function Moved(e: Entity, delta: nat, normalize: Vec2 -> Vec2): Entity {
    var dt := Seconds(delta);
    var burning := e.propulsion.(burnTime :=
      if !e.propulsion.burnTime.finished then Tick(e.propulsion.burnTime, delta) else e.propulsion.burnTime);
    var spent := burning.burnTime.finished && burning.thrust > 0.0;
    var acceleration := if spent then Sub(e.acceleration, ThrustAcceleration(burning, e.velocity, normalize))
                        else e.acceleration;
    var propulsion := if spent then burning.(thrust := 0.0) else burning;
    var v := Add(e.velocity, Scale(dt, acceleration));
    var t := Add(e.translation, Scale(dt, v));
    var vy := if t.y > HEIGHT / 2.0 then -Abs(v.y) else if t.y < -HEIGHT / 2.0 then Abs(v.y) else v.y;
    var vx := if t.x > WIDTH / 2.0 then -Abs(v.x) else if t.x < -WIDTH / 2.0 then Abs(v.x) else v.x;
    e.(propulsion := propulsion, acceleration := acceleration, velocity := Vec2(vx, vy), translation := t)
  }

  /** `life` finds an entity's lifetime over once it has been ticked. */
  function Expired(e: Entity, delta: nat): (r: bool)
    ensures r <==> e.life.finished || e.life.elapsed + delta >= e.life.duration
  {
    Tick(e.life, delta).finished
  }

  /** The entities `life` keeps, each with its lifetime ticked. */
  function Survivors(population: seq<Entity>, delta: nat): seq<Entity> {
    if population == [] then []
    else
      var e := population[0];
      (if Expired(e, delta) then [] else [e.(life := Tick(e.life, delta))]) + Survivors(population[1..], delta)
  }

  /** The entities `life` spawns: each expired entity's child shells at its position. */
  function Offspring(population: seq<Entity>, delta: nat): seq<Entity> {
    if population == [] then []
    else
      var e := population[0];
      (if Expired(e, delta) then Spawned(e.translation, e.shells.shells) else []) + Offspring(population[1..], delta)
  }

  /** The population after `life` and the application of its commands. */
  function LifeStep(population: seq<Entity>, delta: nat): seq<Entity> {
    Survivors(population, delta) + Offspring(population, delta)
  }

  class World {
    var entities: seq<Entity>

    constructor ()
      ensures entities == []
    {
      entities := [];
    }

    /** `spawn_shells` called from outside any system, with its commands applied. */
    method Spawn(position: Vec2, shells: seq<Shell>)
      modifies this
      ensures entities == old(entities) + Spawned(position, shells)
    {
      var commands := SpawnShells([], position, shells);
      entities := entities + commands;
    }

    /** The `movement` system, run over every entity in place. */
    method Movement(delta: nat, normalize: Vec2 -> Vec2)
      modifies this
      ensures |entities| == |old(entities)|
      ensures forall k :: 0 <= k < |entities| ==> entities[k] == Moved(old(entities)[k], delta, normalize)
    {
      var dt := Seconds(delta);
      for i := 0 to |entities|
        invariant |entities| == |old(entities)|
        invariant forall k :: 0 <= k < i ==> entities[k] == Moved(old(entities)[k], delta, normalize)
        invariant forall k :: i <= k < |entities| ==> entities[k] == old(entities)[k]
      {
        var e := entities[i];
        var propulsion, acceleration, velocity, translation := e.propulsion, e.acceleration, e.velocity, e.translation;
        // Continue the initial acceleration until the burn time is finished.
        if !propulsion.burnTime.finished {
          propulsion := propulsion.(burnTime := Tick(propulsion.burnTime, delta));
        }
        if propulsion.burnTime.finished {
          if propulsion.thrust > 0.0 {
            // Take the thrust out of the acceleration, once.
            acceleration := Sub(acceleration, ThrustAcceleration(propulsion, velocity, normalize));
            propulsion := propulsion.(thrust := 0.0);
          }
        }
        velocity := Add(velocity, Scale(dt, acceleration));
        translation := Add(translation, Scale(dt, velocity));
        if translation.y > HEIGHT / 2.0 {
          velocity := velocity.(y := -Abs(velocity.y));
        } else if translation.y < -HEIGHT / 2.0 {
          velocity := velocity.(y := Abs(velocity.y));
        }
        if translation.x > WIDTH / 2.0 {
          velocity := velocity.(x := -Abs(velocity.x));
        } else if translation.x < -WIDTH / 2.0 {
          velocity := velocity.(x := Abs(velocity.x));
        }
        entities := entities[i := e.(propulsion := propulsion, acceleration := acceleration,
                                     velocity := velocity, translation := translation)];
      }
    }

    /** The `life` system: every lifetime is ticked; an entity whose lifetime is
        over is despawned and its child shells are spawned where it was. The
        commands take effect after the whole population has been visited. */
    method Life(delta: nat)
      modifies this
      ensures entities == LifeStep(old(entities), delta)
    {
      var kept: seq<Entity> := [];
      var commands: seq<Entity> := [];
      for i := 0 to |entities|
        invariant entities == old(entities)
        invariant kept == Survivors(entities[..i], delta)
        invariant commands == Offspring(entities[..i], delta)
      {
        var e := entities[i];
        var lifetime := Tick(e.life, delta);
        if lifetime.finished {
          commands := SpawnShells(commands, e.translation, e.shells.shells);
        } else {
          kept := kept + [e.(life := lifetime)];
        }
        assert entities[..i + 1] == entities[..i] + [e];
        SurvivorsAppend(entities[..i], [e], delta);
        OffspringAppend(entities[..i], [e], delta);
      }
      assert entities[..|entities|] == entities;
      entities := kept + commands;
    }
  }

  lemma {:induction false} SurvivorsAppend(a: seq<Entity>, b: seq<Entity>, delta: nat)
    ensures Survivors(a + b, delta) == Survivors(a, delta) + Survivors(b, delta)
  {
    if a != [] {
      assert (a + b)[1..] == a[1..] + b;
      SurvivorsAppend(a[1..], b, delta);
    } else {
      assert a + b == b;
    }
  }

  lemma {:induction false} OffspringAppend(a: seq<Entity>, b: seq<Entity>, delta: nat)
    ensures Offspring(a + b, delta) == Offspring(a, delta) + Offspring(b, delta)
  {
    if a != [] {
      assert (a + b)[1..] == a[1..] + b;
      OffspringAppend(a[1..], b, delta);
    } else {
      assert a + b == b;
    }
  }

  // ---- movement ----

  /** After `movement`, an entity past the top or bottom edge is heading back
      in, and so is one past the left or right edge. */
  lemma MovementBounce(e: Entity, delta: nat, normalize: Vec2 -> Vec2)
    ensures var r := Moved(e, delta, normalize);
      && (r.translation.y > HEIGHT / 2.0 ==> r.velocity.y <= 0.0)
      && (r.translation.y < -HEIGHT / 2.0 ==> r.velocity.y >= 0.0)
      && (r.translation.x > WIDTH / 2.0 ==> r.velocity.x <= 0.0)
      && (r.translation.x < -WIDTH / 2.0 ==> r.velocity.x >= 0.0)
  {
  }

  /** The Euler step: the velocity is advanced by the (possibly just reduced)
      acceleration, the position by that new velocity, and the bounce only
      flips signs, and only of the component whose edge was crossed. */
  lemma MovementEuler(e: Entity, delta: nat, normalize: Vec2 -> Vec2)
    ensures var r := Moved(e, delta, normalize);
      var v := Add(e.velocity, Scale(Seconds(delta), r.acceleration));
      && r.translation == Add(e.translation, Scale(Seconds(delta), v))
      && Abs(r.velocity.x) == Abs(v.x) && Abs(r.velocity.y) == Abs(v.y)
      && (-WIDTH / 2.0 <= r.translation.x <= WIDTH / 2.0 ==> r.velocity.x == v.x)
      && (-HEIGHT / 2.0 <= r.translation.y <= HEIGHT / 2.0 ==> r.velocity.y == v.y)
      && r.life == e.life && r.shells == e.shells && r.image == e.image
  {
  }

  /** The burn timer is ticked only while it has not finished. */
  lemma MovementBurnTimer(e: Entity, delta: nat, normalize: Vec2 -> Vec2)
    ensures var r := Moved(e, delta, normalize);
      && r.propulsion.burnTime == Tick(e.propulsion.burnTime, delta)
      && (e.propulsion.burnTime.finished ==> r.propulsion.burnTime == e.propulsion.burnTime)
  {
  }

  /** A positive thrust is taken out of the acceleration in the step in which
      the burn timer is found finished, and zeroed; in every other step the
      acceleration and the thrust stay as they were. */
  lemma MovementThrustRemoval(e: Entity, delta: nat, normalize: Vec2 -> Vec2)
    ensures var r := Moved(e, delta, normalize);
      && (r.propulsion.burnTime.finished && e.propulsion.thrust > 0.0 ==>
            r.acceleration == Sub(e.acceleration, Scale(e.propulsion.thrust, normalize(e.velocity)))
            && r.propulsion.thrust == 0.0)
      && (!(r.propulsion.burnTime.finished && e.propulsion.thrust > 0.0) ==>
            r.acceleration == e.acceleration && r.propulsion.thrust == e.propulsion.thrust)
      && (r.propulsion.burnTime.finished ==> r.propulsion.thrust <= 0.0)
  {
  }

  /** `movement` run once per frame over a sequence of frame times. */
  function MovedMany(e: Entity, deltas: seq<nat>, normalize: Vec2 -> Vec2): Entity
    decreases |deltas|
  {
    if deltas == [] then e else MovedMany(Moved(e, deltas[0], normalize), deltas[1..], normalize)
  }

  /** Thrust is removed at most once: once the burn is over and the thrust is
      gone, no number of later frames changes the acceleration or the thrust. */
  lemma {:induction false} SpentThrustStaysSpent(e: Entity, deltas: seq<nat>, normalize: Vec2 -> Vec2)
    requires e.propulsion.burnTime.finished && e.propulsion.thrust <= 0.0
    ensures var r := MovedMany(e, deltas, normalize);
      && r.acceleration == e.acceleration && r.propulsion.thrust == e.propulsion.thrust
      && r.propulsion.burnTime.finished
    decreases |deltas|
  {
    if deltas != [] {
      MovementBurnTimer(e, deltas[0], normalize);
      MovementThrustRemoval(e, deltas[0], normalize);
      SpentThrustStaysSpent(Moved(e, deltas[0], normalize), deltas[1..], normalize);
    }
  }

  /** A shell spawned without propulsion never has thrust taken out of its
      acceleration. */
  lemma DefaultPropulsionNeverThrusts(e: Entity, deltas: seq<nat>, normalize: Vec2 -> Vec2)
    requires e.propulsion == DefaultPropulsion()
    ensures MovedMany(e, deltas, normalize).acceleration == e.acceleration
  {
    if deltas != [] {
      var r := Moved(e, deltas[0], normalize);
      assert r.propulsion.burnTime.finished && r.propulsion.thrust == 0.0;
      SpentThrustStaysSpent(r, deltas[1..], normalize);
    }
  }

  /** A shell at rest in the middle of the window, moving up at 100 with
      gravity as its only acceleration: after a one-second frame it moves up
      at 40 and has risen by 40. */
  lemma GravityOnlyFrame(image: ImageHandle, normalize: Vec2 -> Vec2)
    ensures var e := Entity(Vec2(0.0, 0.0), Vec2(0.0, 100.0), FromSeconds(10.0), GRAVITY,
                            DefaultPropulsion(), DefaultShells(), image);
      var r := Moved(e, NanosPerSecond, normalize);
      r.velocity == Vec2(0.0, 40.0) && r.translation == Vec2(0.0, 40.0)
  {
  }

  // ---- life ----

  /** `life` on a single entity: an expired one is replaced by its children
      at its position, any other keeps going with its lifetime ticked. */
  lemma LifeOfOne(e: Entity, delta: nat)
    ensures LifeStep([e], delta) ==
      if Expired(e, delta) then Spawned(e.translation, e.shells.shells) else [e.(life := Tick(e.life, delta))]
  {
    assert [e][1..] == [];
    assert Survivors([e], delta) == if Expired(e, delta) then [] else [e.(life := Tick(e.life, delta))];
    assert Offspring([e], delta) == if Expired(e, delta) then Spawned(e.translation, e.shells.shells) else [];
  }

  /** An entity is in the kept part of the new population exactly when an
      unexpired entity of the old one, with its lifetime ticked, is it. */
  predicate KeptAs(d: Entity, x: Entity, delta: nat) {
    !Expired(d, delta) && x == d.(life := Tick(d.life, delta))
  }

  lemma {:induction false} SurvivorsMembers(population: seq<Entity>, delta: nat, x: Entity)
    ensures x in Survivors(population, delta) <==>
      exists k :: 0 <= k < |population| && KeptAs(population[k], x, delta)
    ensures x in Survivors(population, delta) ==> !x.life.finished
  {
    if population != [] {
      var rest := population[1..];
      SurvivorsMembers(rest, delta, x);
      if exists k :: 0 <= k < |population| && KeptAs(population[k], x, delta) {
        var k :| 0 <= k < |population| && KeptAs(population[k], x, delta);
        if k > 0 {
          assert rest[k - 1] == population[k];
        }
      }
      if exists k :: 0 <= k < |rest| && KeptAs(rest[k], x, delta) {
        var k :| 0 <= k < |rest| && KeptAs(rest[k], x, delta);
        assert population[k + 1] == rest[k];
      }
    }
  }

  /** A spawned entity is the child shell `j` of an expired entity, at that
      entity's position; its timers are those of the template, not ticked in
      the frame that spawned it. */
  predicate ChildOf(d: Entity, x: Entity, delta: nat) {
    Expired(d, delta) && exists j :: 0 <= j < |d.shells.shells| && x == EntityOf(d.shells.shells[j], d.translation)
  }

  lemma {:induction false} OffspringMembers(population: seq<Entity>, delta: nat, x: Entity)
    ensures x in Offspring(population, delta) <==>
      exists k :: 0 <= k < |population| && ChildOf(population[k], x, delta)
  {
    if population != [] {
      var rest := population[1..];
      var e := population[0];
      OffspringMembers(rest, delta, x);
      var own := if Expired(e, delta) then Spawned(e.translation, e.shells.shells) else [];
      assert Offspring(population, delta) == own + Offspring(rest, delta);
      if x in own {
        var j :| 0 <= j < |own| && own[j] == x;
        assert ChildOf(population[0], x, delta);
      }
      if ChildOf(e, x, delta) {
        var j :| 0 <= j < |e.shells.shells| && x == EntityOf(e.shells.shells[j], e.translation);
        assert own[j] == x;
      }
      if exists k :: 0 <= k < |population| && ChildOf(population[k], x, delta) {
        var k :| 0 <= k < |population| && ChildOf(population[k], x, delta);
        if k > 0 {
          assert rest[k - 1] == population[k];
        }
      }
      if exists k :: 0 <= k < |rest| && ChildOf(rest[k], x, delta) {
        var k :| 0 <= k < |rest| && ChildOf(rest[k], x, delta);
        assert population[k + 1] == rest[k];
      }
    }
  }

  /** When every expiring entity is a leaf, `life` only despawns. */
  lemma {:induction false} LeavesOnlyDespawn(population: seq<Entity>, delta: nat)
    requires forall k :: 0 <= k < |population| ==> population[k].shells.shells == []
    ensures Offspring(population, delta) == []
    ensures LifeStep(population, delta) == Survivors(population, delta)
  {
    if population != [] {
      LeavesOnlyDespawn(population[1..], delta);
    }
  }
}
