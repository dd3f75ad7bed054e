/** Option and Result, used for every oracle call that may fail or return nothing. */
module Wrappers {

  /** `None` stands for an absent JavaScript value (`undefined`/`null`) or a parse that failed. */
  datatype Option<+T> = None | Some(value: T)

  /** The result of an awaited call: `Err` when the promise rejected (the call threw). */
  datatype Result<+T> = Ok(value: T) | Err(message: string)

  /** JavaScript truthiness of a string that may be undefined: present and non-empty. */
  predicate Truthy(v: Option<string>)
  {
    v.Some? && v.value != ""
  }
}
