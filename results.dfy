/** Success/failure values for the operations that raise in test.py. */
module Results {

  datatype Result<+T, +E> = Ok(value: T) | Err(error: E)
}
