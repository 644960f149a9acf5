/** The error values the team handlers put on the request context, and the
    value-or-error shape in which every store call answers. */
module Errors {

  datatype Option<T> = None | Some(value: T)

  /** The HTTP status an error carries: `Default` is whatever `NewAppError`
      leaves in place; the handlers override it with 400 or 403. */
  datatype Status = Default | BadRequest | Forbidden

  /** `model.AppError`: where it was raised, a user-facing message, a detail
      string and a status. */
  datatype AppError = AppError(where: string, message: string, detail: string, status: Status)

  /** The answer of one synchronous store call: a value or an error. */
  datatype Result<T> = Ok(value: T) | Err(error: AppError)

  /** `Context.SetInvalidParam(where, name)`: a 400 naming the parameter. */
  function InvalidParam(where: string, name: string): (e: AppError)
    ensures e.status == BadRequest && e.where == where
  {
    AppError(where, "Invalid " + name + " parameter", "", BadRequest)
  }
}
