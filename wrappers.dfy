/** Kotlin's nullable values and `kotlin.Result`, as Dafny datatypes. */
module Wrappers {

  /** A Kotlin `T?`: `None` stands for `null`. */
  datatype Option<+T> = None | Some(value: T) {

    /** Kotlin's elvis operator `this ?: default`. */
    function GetOr(default: T): T {
      match this
      case Some(v) => v
      case None => default
    }
  }

  /** A Kotlin `Result<R>`: a success value or the failure that was caught. */
  datatype Result<+R, +E> = Success(value: R) | Failure(error: E)
}
