// Types shared by every module.

module Prelude {

  datatype Option<+T> = None | Some(value: T) {
    function GetOr(default: T): T {
      if Some? then value else default
    }
  }

  /** The outcome of an operation that either yields a value or raises the component's error. */
  datatype Result<+T> = Ok(value: T) | Refused
}
