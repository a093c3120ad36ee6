/** Value types shared by the whole model: the 32-bit integers of the JVM and the
    usual Option and Result wrappers. */
module Basics {

  /** A Kotlin `Int` (a JVM 32-bit signed integer). */
  newtype int32 = x: int | -0x8000_0000 <= x < 0x8000_0000

  predicate IsInt32(n: int) {
    -0x8000_0000 <= n < 0x8000_0000
  }

  datatype Option<T> = None | Some(value: T) {
    function GetOr(default: T): T {
      match this
      case Some(v) => v
      case None => default
    }
  }

  /** The outcome of an operation that may raise an error instead of returning. */
  datatype Result<T, E> = Success(value: T) | Failure(error: E)
}
