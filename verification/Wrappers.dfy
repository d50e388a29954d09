/** Optional values, and the errors the orchestration code raises as ordinary results. */
module Wrappers {
  datatype Option<+T> = None | Some(value: T)

  /** `StateTransition` stands for StateTransitionError, `UnknownKey` for KeyError,
      `InvalidValue` for ValueError and its kin. */
  datatype Error = StateTransition | UnknownKey | InvalidValue | Protocol

  datatype Result<+T> = Ok(value: T) | Err(error: Error)
}
