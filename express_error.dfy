/** The error classes of `expressError` that the job model and the middleware raise. */
module ExpressError {

  datatype ExpressError =
    | NotFoundError(message: string)
    | BadRequestError(message: string)
    | UnauthorizedError
}
