/**
 * What a JavaScript computation can end with: a value, or a thrown value.
 * A thrown value is an `Error` object (a `TypeError` is told apart, since
 * the local-LLM client branches on it), a string, or anything else.
 */
module JsValues {

  datatype Option<T> = None | Some(value: T)

  datatype Thrown =
    | ErrorObject(isTypeError: bool, message: string)
    | ThrownString(text: string)
    | ThrownOther

  /** The completion of an expression or an awaited promise. */
  datatype Completion<T> = Normal(value: T) | Throw(thrown: Thrown)

  /** `new Error(message)`. */
  function NewError(message: string): Thrown {
    ErrorObject(false, message)
  }
}
