/** JavaScript-level values that the music API reads and produces. */
module Js {

  /** What `row['?var']` yields: the bound text, or `undefined` when the row has no such key. */
  datatype Field = Unbound | Bound(value: string)

  /** One binding row of the endpoint's result table, keyed by query variable (`?position`, `?id`, ...). */
  type Row = map<string, string>

  /** Reads a query variable out of a row, as the property access `row[variable]` does. */
  function Get(row: Row, variable: string): (f: Field)
    ensures f.Bound? <==> variable in row
  {
    if variable in row then Bound(row[variable]) else Unbound
  }

  /** A thrown JavaScript value: `new Error(message)`, or the TypeError raised by reading a property of `undefined`. */
  datatype JsError = Error(message: string) | TypeError

  datatype Option<T> = None | Some(value: T)

  /** How an operation completes: normally with a value, or by throwing. */
  datatype Result<T> = Success(value: T) | Failure(error: JsError)
}
