/** Small building blocks shared by both revisions of the fireworks model:
    optional values, the `i32` width of a recipe's child count, opaque image
    handles and the unit interval that every random draw falls in. */
module Base {

  /** Rust's `Option<T>`. */
  datatype Option<+T> = None | Some(value: T) {
    /** `Option::unwrap_or`. */
    function GetOr(default: T): T {
      match this
      case Some(v) => v
      case None => default
    }
  }

  /** Rust's `i32`. */
  newtype i32 = x: int | -0x8000_0000 <= x < 0x8000_0000

  /** A `Handle<Image>`: the core stores and copies it, and never looks inside. */
  datatype ImageHandle = ImageHandle(id: nat)

  /** `rand::random::<f32>()` yields a value in [0, 1). */
  predicate UnitDraw(r: real) {
    0.0 <= r < 1.0
  }
}
