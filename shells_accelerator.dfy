/** Acceleration policies of the `shells` revision.

    The source stores a plain function pointer in `Accelerator`; the model
    names the two policies it covers in a closed enumeration and dispatches
    on it. Each policy updates a velocity it is handed by mutable reference;
    here it receives the old velocity and returns the new one. A policy that
    draws random numbers receives them as a pair `draw` of values in [0, 1). */
module ShellsAccelerator {
  import opened Base
  import opened Vector
  import opened Timing
  import opened ShellsMovement

  const GRAVITY: Vec2 := Vec2(0.0, -60.0)

  /** The two random numbers of one `randomize_accelerator` call. */
  predicate UnitDraws(draw: Vec2) {
    UnitDraw(draw.x) && UnitDraw(draw.y)
  }

  /** The random direction `(1 - 2 r1, 1 - 2 r2)` of `randomize_accelerator`. */
  function Jitter(draw: Vec2): (j: Vec2)
    requires UnitDraws(draw)
    ensures -1.0 < j.x <= 1.0 && -1.0 < j.y <= 1.0
  {
    Vec2(1.0 - 2.0 * draw.x, 1.0 - 2.0 * draw.y)
  }

  /** `negative_gravity`: cancels the gravity term of the same time step. */
  method NegativeGravity(thrust: real, velocity: Velocity, dTime: real, burnTime: Timer)
    returns (velocity': Velocity)
    ensures Add(velocity', Scale(dTime, GRAVITY)) == velocity
    ensures velocity'.x == velocity.x && velocity'.y == velocity.y + 60.0 * dTime
    ensures dTime == 0.0 ==> velocity' == velocity
  {
    velocity' := Sub(velocity, Scale(dTime, GRAVITY));
  }

  /** `randomize_accelerator`: an impulse of at most `thrust` per component,
      independent of the time step. */
  method RandomizeAccelerator(thrust: real, velocity: Velocity, dTime: real, burnTime: Timer, draw: Vec2)
    returns (velocity': Velocity)
    requires UnitDraws(draw)
    ensures velocity' == Add(velocity, Scale(thrust, Jitter(draw)))
    ensures thrust >= 0.0 ==>
      -thrust <= velocity'.x - velocity.x <= thrust && -thrust <= velocity'.y - velocity.y <= thrust
    ensures thrust > 0.0 ==> -thrust < velocity'.x - velocity.x && -thrust < velocity'.y - velocity.y
  {
    var acceleration := Scale(thrust, Jitter(draw));
    velocity' := Add(velocity, acceleration);
    JitterBound(thrust, Jitter(draw).x, velocity'.x - velocity.x);
    JitterBound(thrust, Jitter(draw).y, velocity'.y - velocity.y);
  }

  /** An impulse `thrust * j` with `j` in (-1, 1] lies in (-thrust, thrust]. */
  lemma JitterBound(thrust: real, j: real, impulse: real)
    requires -1.0 < j <= 1.0 && impulse == thrust * j
    ensures thrust >= 0.0 ==> -thrust <= impulse <= thrust
    ensures thrust > 0.0 ==> -thrust < impulse
  {
    if thrust > 0.0 {
      assert thrust * j <= thrust * 1.0;
      assert thrust * -1.0 < thrust * j;
    }
  }

  /** The policies the model covers (`exponential_accelerator` is left out). */
  datatype AcceleratorFn = NegativeGravityFn | RandomizeAcceleratorFn

  datatype Accelerator = Accelerator(accelerator: AcceleratorFn, burnTime: Timer, thrust: real) {

    /** `Accelerator::get_velocity`: runs the stored policy with this
        accelerator's own thrust and burn timer; the accelerator itself is a
        value and stays as it is. */
    method GetVelocity(velocity: Velocity, dTime: real, draw: Vec2) returns (velocity': Velocity)
      requires UnitDraws(draw)
      ensures accelerator.NegativeGravityFn? ==> Add(velocity', Scale(dTime, GRAVITY)) == velocity
      ensures accelerator.RandomizeAcceleratorFn? ==> velocity' == Add(velocity, Scale(thrust, Jitter(draw)))
    {
      match accelerator
      case NegativeGravityFn =>
        velocity' := NegativeGravity(thrust, velocity, dTime, burnTime);
      case RandomizeAcceleratorFn =>
        velocity' := RandomizeAccelerator(thrust, velocity, dTime, burnTime, draw);
    }
  }
}
