/** Small value wrappers shared by the phonebook model: an optional value, a JavaScript
    error object, and the two ways a promise returned by a database query can settle. */
module Wrappers {

  datatype Option<+T> = None | Some(value: T)

  /** A JavaScript `Error`: the router only ever looks at its `name` and `message`. */
  datatype Error = Error(name: string, message: string)

  /** How a query's promise settles: `.then` sees `value`, `.catch` sees `reason`. */
  datatype Settled<+T> = Fulfilled(value: T) | Rejected(reason: Error)
}
