/** How outcomes travel through the login code. */
module Results {

  datatype Option<+T> = None | Some(value: T)

  /** How a callback settles: it returns a value or throws an error.  An error is
      represented by its message. */
  datatype Outcome<+T> = Returns(value: T) | Throws(message: string)

  /** The source's `Result<T>`, an object with an optional `error` and an optional
      `data` field.  The type itself allows both or neither; the operations of the
      login code are proved to fill exactly one (`IsExclusive`). */
  datatype Result<+T> = Result(error: Option<string>, data: Option<T>)
  {
    predicate IsExclusive() {
      error.Some? != data.Some?
    }
  }

  /** The result that carries `message` as its error. */
  function Failure<T>(message: string): (r: Result<T>)
    ensures r.IsExclusive() && r.error == Some(message)
  {
    Result(Some(message), None)
  }

  /** The result that carries `value` as its data. */
  function Success<T>(value: T): (r: Result<T>)
    ensures r.IsExclusive() && r.data == Some(value)
  {
    Result(None, Some(value))
  }
}
