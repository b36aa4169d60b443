/** Failure-carrying wrappers shared by the model: a raised Python exception
    becomes an `Err` carrying the kind of fault. */
module Results {

  datatype Option<+T> = None | Some(value: T)

  datatype Result<+T, +E> = Ok(value: T) | Err(fault: E)
}
