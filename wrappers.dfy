/** Option and Result: the model's stand-ins for Go's nil pointers and (value, error) returns. */
module Wrappers {

  datatype Option<+T> = None | Some(value: T)

  /** A fatal Go error path (log.Fatal, os.Exit, panic) becomes a Failure value. */
  datatype Result<+R, +E> = Success(value: R) | Failure(error: E)
}
