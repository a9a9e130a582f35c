/** Failure-carrying result types shared by the upload command and the
    credentials facade: a Go `(value, error)` pair becomes a `Result`, a bare
    `error` that may be nil becomes an `Option`. */
module Results {

  datatype Option<+T> = None | Some(value: T)

  datatype Result<+T, +E> = Ok(value: T) | Err(error: E)
}
