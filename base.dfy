/** Vocabulary shared by every part of the storefront model. */
module Base {

  /** A nullable column, or a request field that may be absent. */
  datatype Option<T> = None | Some(value: T)

  /** The error statuses the request handlers answer with. */
  datatype HttpError =
    | BadRequest(message: string)     // 400
    | Forbidden                       // 403
    | NotFound                        // 404, also what findOrFail and route binding answer
    | Unprocessable(message: string)  // 422, a failed validation rule
    | ServerError                     // 500, an exception escaped the handler (inside a transaction, rolled back)

  /** The answer of a request handler: what it reports on success, or its error. */
  datatype Result<T> = Ok(value: T) | Err(error: HttpError)

  /** PHP truthiness of a nullable string: null, "" and "0" are all false. */
  predicate Filled(s: Option<string>)
  {
    s.Some? && s.value != "" && s.value != "0"
  }

  function MaxInt(a: int, b: int): int
  {
    if a >= b then a else b
  }

  function MinReal(a: real, b: real): real
  {
    if a <= b then a else b
  }

  function MaxReal(a: real, b: real): real
  {
    if a >= b then a else b
  }
}
