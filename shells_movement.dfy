/** The component newtypes of the `shells` revision. They carry no behaviour,
    so each is a synonym of the value it wraps. */
module ShellsMovement {
  import opened Vector
  import opened Timing

  type Velocity = Vec2
  type Rotation = real
  type Lifetime = Timer
}
