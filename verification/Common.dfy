/** Vocabulary shared by the models of the mortgage services. */
module Common {

  datatype Option<+T> = None | Some(value: T)

  /** The HTTP class of an `AppError`; a service call that throws leaves the store as it was. */
  datatype AppError = BadRequest | Forbidden | NotFound | Conflict

  datatype Result<+T> = Ok(value: T) | Err(error: AppError)

  function Min(a: int, b: int): int { if a <= b then a else b }

  function Max(a: int, b: int): int { if a >= b then a else b }
}
