/** Failure-carrying values shared by both cores: an optional value and the
    outcome of an operation that the program would end by raising. */
module Results {

  datatype Option<+T> = None | Some(value: T)

  /** `Err` stands for the exception the source raises on that path. */
  datatype Result<+T, +E> = Ok(value: T) | Err(error: E)
}
