/** Optional values and results with an error, used where the dashboard's Python
    code either has no value or raises an exception. */
module Results {

  datatype Option<+T> = None | Some(value: T)

  datatype Result<+T, +E> = Ok(value: T) | Err(error: E)
}
