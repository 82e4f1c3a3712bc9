/** Result shapes shared by every layer of the interpreter model. */
module Outcomes {

  /** `std::optional`: a value that may be absent. */
  datatype Option<+T> = None | Some(value: T)

  /** A computation that either yields a value or raises (any exception of the source). */
  datatype Result<+T> = Ok(value: T) | Err

  /**
   * A state transition that either runs to completion or throws part-way.
   * Both carry the state reached: the source updates its fields in place, so
   * whatever an operation did before it threw is still there afterwards.
   */
  datatype Outcome<+S> = Done(state: S) | Failed(state: S)

  /** The outcome a method reports through its `ok` flag and its new state. */
  function Report<S>(ok: bool, s: S): (r: Outcome<S>)
    ensures r.state == s && (r.Done? <==> ok)
  {
    if ok then Done(s) else Failed(s)
  }
}
