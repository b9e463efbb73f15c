/** Error-carrying results shared by the kubeadm and heketi models.
    Go's `(value, error)` pairs and plain `error` returns become `Result`
    and `Option` values; an error is represented by its message text. */
module Results {

  /** Either a value or the error message the Go code would return. */
  datatype Result<+T> = Ok(value: T) | Err(error: string)

  /** Conventional Some/None wrapper. */
  datatype Option<+T> = None | Some(value: T)
}
