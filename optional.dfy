/** The source's nullable references (a Java `null`) as an explicit option. */
module Optional {

  datatype Option<+T> = None | Some(value: T)

  /** A computation that either produces a value or stops with an error message. */
  datatype Result<+T> = Ok(value: T) | Err(message: string)
}
