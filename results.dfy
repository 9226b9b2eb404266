/** Option and Result, the two failure-carrying shapes every Go `(value, error)` pair of the
    service is modelled with. */
module Results {

  datatype Option<+T> = None | Some(value: T)

  datatype Result<+T, +E> = Ok(value: T) | Err(error: E)
}
