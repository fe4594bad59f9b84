/** Values shared by every component: JavaScript's `null`, and the outcome of a call
    into the hosted backend, which the application never implements itself. */
module Common {

  /** A value that may be `null` (or `undefined`) in the source. */
  datatype Option<+T> = None | Some(value: T)

  /** The outcome of one backend call: its `data` when `error` is absent, or the
      error's `message`. A failed query carries no data. */
  datatype Remote<+T> = Ok(data: T) | Err(message: string)

  /** `res.data || []`: the rows of a query, or the empty list when the query
      failed and left `data` null. */
  function OrEmpty<T>(res: Remote<seq<T>>): (rows: seq<T>)
    ensures res.Ok? ==> rows == res.data
    ensures res.Err? ==> rows == []
  {
    match res
    case Ok(data) => data
    case Err(_) => []
  }
}
