/** Optional values and fallible results. */
module Wrappers {

  /** An optional value, as Rust's `Option<T>`. */
  datatype Option<+T> = None | Some(value: T) {
    /** The wrapped value, or `default` when there is none (`unwrap_or`). */
    function GetOr(default: T): T {
      match this
      case Some(v) => v
      case None => default
    }
  }

  /** A value or an error, as Rust's `Result<T, E>`. */
  datatype Result<+T, +E> = Success(value: T) | Failure(error: E)
}

/** Fixed-width unsigned integers of the source, as subsets of `int`. */
module MachineInts {

  const U8Limit: int := 0x100
  const U32Limit: int := 0x1_0000_0000
  const U64Limit: int := 0x1_0000_0000_0000_0000

  type u8 = x: int | 0 <= x < U8Limit
  type u32 = x: int | 0 <= x < U32Limit
  type u64 = x: int | 0 <= x < U64Limit

  /**
   * Rust's `x as u32` on a `u64`: keeps the low 32 bits, that is, the one
   * `u32` that differs from `x` by a multiple of 2^32.
   */
  function TruncateToU32(x: u64): (r: u32)
    ensures x < U32Limit ==> r == x
    ensures r <= x
    ensures (x - r) % U32Limit == 0
  {
    x % U32Limit
  }
}
