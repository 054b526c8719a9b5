/** Types shared by every module: optional values and results that carry an error. */
module Common {

  /** The names on the way from the root of a file system. */
  type Path = seq<string>

  datatype Option<+T> = None | Some(value: T)

  datatype Result<+T, +E> = Ok(value: T) | Err(error: E)
}
