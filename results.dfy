/** Error values standing for the Python exceptions the modelled code raises,
    and the Option/Result wrappers used to return them instead of throwing. */
module Results {

  /** The exception classes raised on the modelled paths, with their messages.
      BackendError stands for whatever a network request, a subprocess or a
      language model raises outside the model. */
  datatype Error =
    | ValueError(message: string)
    | ZeroDivisionError
    | FileNotFoundError(message: string)
    | IndexError(message: string)
    | BackendError(message: string)

  datatype Result<+T> = Ok(value: T) | Err(error: Error)

  datatype Option<+T> = None | Some(value: T)
}
