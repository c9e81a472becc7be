/** The null-or-value and value-or-error shapes the C# code expresses with
  * nullable references and exceptions. */
module Wrappers {
  datatype Option<T> = None | Some(value: T) {
    /** `x ?? d` */
    function GetOr(d: T): T {
      if Some? then value else d
    }
  }

  datatype Result<T, E> = Ok(value: T) | Err(error: E)
}
