/** Small types shared by every component. */
module Wrappers {

  datatype Option<+T> = None | Some(value: T) {
    /** The value, or `default` when there is none. */
    function UnwrapOr(default: T): T {
      match this
      case Some(v) => v
      case None => default
    }
  }

  const U64_MAX: nat := 0xFFFF_FFFF_FFFF_FFFF

  /** A 64-bit unsigned count. */
  type u64 = x: int | 0 <= x <= U64_MAX
}
