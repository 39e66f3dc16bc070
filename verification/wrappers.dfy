/** Failure-compatible wrappers shared by every handler of the model.

    Every backend call of the application (auth, table query, storage,
    edge function) is modelled as one of these values, passed in by the
    caller, so that each handler becomes a pure function of its inputs and
    of the outcomes the backend reported. */
module Wrappers {

  /** A value that may be null or undefined in the source. */
  datatype Option<+T> = None | Some(value: T)

  /** A backend call whose only observable is whether it reported an error. */
  datatype Outcome = Success | Failure(error: string)

  /** A select query: either an error, or `data`, which the client library
      may return as null. */
  datatype Query<+T> = QueryError(error: string) | QueryOk(data: Option<T>)
}
