/** Bevy's non-repeating `Timer`, as the fireworks code uses it.

    Time is counted in whole nanoseconds, as `std::time::Duration` counts it.
    The model follows Bevy 0.8: `finished` is a flag that only `tick` sets, a
    tick on a finished non-repeating timer does nothing, and a tick that
    reaches the duration clamps `elapsed` to it. */
module Timing {

  const NanosPerSecond: nat := 1_000_000_000

  datatype Timer = Timer(duration: nat, elapsed: nat, finished: bool) {
    /** What every timer built by `FromSeconds` and advanced by `Tick` satisfies. */
    predicate Valid() {
      elapsed <= duration && (finished ==> elapsed == duration)
    }
  }

  /** `Duration::as_secs_f32`, without the `f32` rounding. */
  function Seconds(nanos: nat): (s: real)
    ensures s >= 0.0
    ensures s * NanosPerSecond as real == nanos as real
  {
    nanos as real / NanosPerSecond as real
  }

  /** `Timer::from_seconds(secs, false)`. `Duration::from_secs_f32` panics on a
      negative argument; the model assumes it truncates to whole nanoseconds,
      as older Rust toolchains do (newer ones round to the nearest). */
  function FromSeconds(secs: real): (t: Timer)
    requires secs >= 0.0
    ensures t.duration as real <= secs * NanosPerSecond as real < t.duration as real + 1.0
    ensures t.elapsed == 0 && !t.finished && t.Valid()
  {
    Timer((secs * NanosPerSecond as real).Floor, 0, false)
  }

  /** `Timer::tick(delta)` on a non-repeating timer. */
  function Tick(t: Timer, delta: nat): (r: Timer)
    ensures r.duration == t.duration
    ensures r.finished <==> t.finished || t.elapsed + delta >= t.duration
    ensures t.finished ==> r == t
    ensures !r.finished ==> r.elapsed == t.elapsed + delta
    ensures t.Valid() ==> r.Valid() && t.elapsed <= r.elapsed
  {
    if t.finished then t
    else if t.elapsed + delta >= t.duration then Timer(t.duration, t.duration, true)
    else Timer(t.duration, t.elapsed + delta, false)
  }
}
