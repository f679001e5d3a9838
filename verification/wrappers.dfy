/** Failure-carrying result types used to model the exceptions the
    calculator throws: `Failure` stands for a thrown `Error`. */
module Wrappers {

  datatype Option<+T> = None | Some(value: T)

  datatype Result<+R, +E> = Success(value: R) | Failure(error: E)
}
