/**
 * How the datastore's operations end.
 *
 * Every operation of the source returns a promise or throws. The model flattens the
 * promises into sequential calls and keeps apart the three ways a call can fail,
 * because the source does not treat them alike: a promise rejected with a bare
 * string (the namespace and indexer checks, the in-memory store's missing key), a
 * promise rejected with an Error raised inside a continuation, and an Error thrown
 * before any promise is handed back.
 */
module Outcomes {

  datatype Failure =
    | Rejected(reason: string)        // the returned promise rejects with this string
    | RejectedError(message: string)  // the returned promise rejects with an Error carrying this message
    | Threw(message: string)          // the call throws an Error with this message

  datatype Result<T> = Ok(value: T) | Err(error: Failure)

  /** The end of an operation that resolves with no value of interest. */
  datatype Outcome = Pass | Fail(error: Failure)

  /** The runtime's message for reading property `prop` of null or undefined (`base`). */
  function TypeErrorReading(base: string, prop: string): string
  {
    "Cannot read properties of " + base + " (reading '" + prop + "')"
  }
}
