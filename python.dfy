/**
 * The small part of Python's runtime behaviour that the agent relies on:
 * optional values, the exceptions that are raised or let through, and the
 * outcome of a call that either returns or raises.
 */
module Python {

  /** A value that may be absent (Python's `None`). */
  datatype Option<+T> = None | Some(value: T)

  /**
   * The exceptions the agent raises or lets through. `OtherError` stands for
   * any exception type that is NOT a subclass of `ValueError` (a transport
   * error of the chat client, say); `ValueError` covers its subclasses too.
   */
  datatype Exception =
    | ValueError(message: string)
    | KeyError(key: string)
    | AttributeError(message: string)
    | OtherError(typeName: string, message: string)
  {
    /** True iff an `except ValueError` clause catches this exception. */
    predicate IsValueError() {
      ValueError?
    }
  }

  /** The outcome of a Python call: it returns a value or raises an exception. */
  datatype Outcome<+T> = Returned(value: T) | Raised(exception: Exception)
  {
    /** True iff the call raised something an `except ValueError` catches. */
    predicate RaisedValueError() {
      Raised? && exception.IsValueError()
    }
  }
}
