/** Failure-carrying return values: the Go `(T, error)` pairs and panics of the
    DNS server are modelled as `Result`, a possibly-nil reference as `Option`. */
module Wrappers {

  datatype Option<+T> = None | Some(value: T)

  /** `Ok(v)` stands for `(v, nil)`; `Err(msg)` for `(zero, errors.New(msg))`. */
  datatype Result<+T> = Ok(value: T) | Err(error: string)
}
