/** The two result wrappers the controller consumes from the framework's functional helpers. */
module Functional {

  /** Presence or absence of a looked-up value: `HasValue` and `Value` in the framework. */
  datatype Maybe<+T> = None | Some(value: T) {

    predicate HasValue() {
      Some?
    }
  }

  /** One field-level error carried by a failed result. */
  datatype ValidationFailure = ValidationFailure(memberName: string, message: string)

  /** Outcome of a service operation: success, or failure with a message and the field errors. */
  datatype Result = Ok | Fail(message: string, failures: seq<ValidationFailure>) {

    predicate Failed() {
      Fail?
    }
  }
}
