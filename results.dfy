/** The value types every check macro produces: Rust's `Result`, and the
    small part of `std::io::Error` that the io-flavoured macros build. */
module Results {

  /** Rust's `Result<T, E>`: the success channel or the error channel. */
  datatype Result<+T, +E> = Ok(value: T) | Err(error: E)

  /** A subset of the variants of `std::io::ErrorKind`. Only `InvalidInput`
      is ever produced by the macros; the others are there so that saying
      which kind a failure carries means something. */
  datatype ErrorKind = NotFound | PermissionDenied | InvalidInput | InvalidData | Other

  /** `std::io::Error::new(kind, message)`: a classification and the text
      that `get_ref().unwrap().to_string()` gives back. */
  datatype IoError = IoError(kind: ErrorKind, message: string)
}
