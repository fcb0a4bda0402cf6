/** Optional values and call outcomes shared by every module.
    `Option` stands for the TypeScript `T | undefined` / `T | null` of optional fields;
    `Result` stands for an awaited call that either resolves with a value or rejects. */
module Wrappers {

  datatype Option<+T> = None | Some(value: T) {
    function GetOr(default: T): T {
      match this
      case Some(v) => v
      case None => default
    }
  }

  /** An awaited call: `Ok(value)` when the promise resolves, `Err(error)` when it rejects. */
  datatype Result<+T, +E> = Ok(value: T) | Err(error: E)
}
