/** Optional values, results, and the errors the modelled code throws. */
module Wrappers {

  datatype Option<+T> = None | Some(value: T)

  datatype Result<+T> = Ok(value: T) | Err(error: Error)

  /** How a call that returns nothing ends: normally, or with an exception. */
  datatype Outcome = Pass | Fail(error: Error)

  /** The exceptions thrown by the modelled JavaScript code. */
  datatype Error =
    /** `new Error('Unsupported operation type.')` */
    | UnsupportedOperation
    /** `new Error('Unsupported operation type: ' + type)` from the primitive-op decoder */
    | UnsupportedPrimitive(opcode: string)
    /** `'Parsing error: ' + msg + '\n' + str.slice(pos)` raised by the tokenizer */
    | ParsingError(expected: string, remainder: string)
    /** `new Error('Illegal arguments.')` from the change-record constructor */
    | IllegalArguments
    /** A TypeError of the engine: a property read on `null`, or an assignment to a frozen object */
    | TypeError

  /** The message text of an error, as the source builds it. */
  function Message(e: Error): string
  {
    match e
    case UnsupportedOperation => "Unsupported operation type."
    case UnsupportedPrimitive(t) => "Unsupported operation type: " + t
    case ParsingError(expected, remainder) => "Parsing error: " + expected + "\n" + remainder
    case IllegalArguments => "Illegal arguments."
    case TypeError => "TypeError"
  }
}
