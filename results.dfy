/** Failure-carrying result types used across the model in place of the
    exceptions the program raises (KeyError, ValueError) or the `None` it
    returns. */
module Results {

  datatype Option<+T> = None | Some(value: T)

  datatype Result<+T, +E> = Ok(value: T) | Err(error: E)
}
