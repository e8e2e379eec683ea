// Result types shared by every module.
module Wrappers {

  datatype Option<+T> = None | Some(value: T)

  // The exceptions the runtime raises. Raised stands for any exception that is
  // not one of the package's own (KeyError, TypeError, a driver error, ...).
  datatype Error =
    | ValidationError
    | ConfirmationError
    | SessionConflict
    | MigrationError
    | AuthorizationError
    | ReferenceMismatch
    | UniqueViolation
    | CaptureStorageError
    | Raised

  datatype Outcome<+T> = Ok(value: T) | Err(error: Error) {
    predicate IsFailure() { Err? }

    function PropagateFailure<U>(): Outcome<U>
      requires Err?
    {
      Err(error)
    }

    function Extract(): T
      requires Ok?
    {
      value
    }
  }
}
