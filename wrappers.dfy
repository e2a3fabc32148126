/** Optional values (TypeScript's `T | null` / `T | undefined`) and results of
    operations that may throw. */
module Wrappers {

  datatype Option<+T> = None | Some(value: T) {
    /** The value, or `default` when there is none (TypeScript's `??`). */
    function GetOr(default: T): T {
      match this
      case Some(v) => v
      case None => default
    }
  }

  /** The outcome of an operation that either returns a value or throws an
      `Error` whose message is the string carried by `Err`. */
  datatype Result<+R> = Ok(value: R) | Err(error: string)
}
