// Optional values and fallible results shared by every module of the model.
// `None` stands for JavaScript's `undefined`/`null` (and, for numbers, NaN),
// `Err` for a thrown exception.
module Wrappers {
  datatype Option<T> = None | Some(value: T)
  {
    function UnwrapOr(default: T): T
    {
      if Some? then value else default
    }
  }

  datatype Result<T> = Ok(value: T) | Err(error: string)

  /**
   * What an awaited call did: returned a value, or threw; `message` is the
   * thrown `Error`'s message, `None` when something other than an `Error`
   * was thrown.
   */
  datatype Outcome<T> = Returned(value: T) | Threw(message: Option<string>)
}
