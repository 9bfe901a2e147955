/** How the JavaScript code's values and exceptions are represented. */
module Outcomes {

  /** A value or JavaScript's `null`/`undefined`. */
  datatype Option<+T> = None | Some(value: T)

  /** What a `throw` carries: an `Error` instance with its `message`, or any
      other value (a string, a plain object, ...), which the catch blocks
      test with `instanceof Error`. */
  datatype Thrown = Error(message: string) | NonError

  /** How an awaited call ends: it resolves with a value or it rejects
      (throws) with a thrown value. */
  datatype Completion<+T> = Normal(value: T) | Threw(thrown: Thrown)
}
