/** `handleError`: collapsing a failed request into one thrown Error. */
module Errors {
  import opened Js

  /** The message used when the server supplies no first error entry. */
  const Fallback: string := "Unreachable server error"

  /**
   * One element of `error.response.data.errors`: an entry with its `details`, or a
   * `null`/`undefined` element (both compare equal to `undefined` under `!=`).
   */
  datatype ErrorSlot = Missing | Entry(details: string)

  /**
   * Starts from the fallback message, replaces it with the first entry's details when
   * `errors[0]` is defined, and throws `new Error(message)`; it never returns normally.
   */
  method HandleError(errors: seq<ErrorSlot>) returns (r: Result<()>)
    ensures r.Failure? && r.error.Error?
    ensures |errors| > 0 && errors[0].Entry? ==> r.error.message == errors[0].details
    ensures |errors| == 0 || errors[0].Missing? ==> r.error.message == Fallback
  {
    var message := Fallback;
    if |errors| > 0 && errors[0].Entry? {
      message := errors[0].details;
    }
    r := Failure(Error(message));
  }
}
