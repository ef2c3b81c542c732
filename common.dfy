/** Values shared by every service of the model: optional values, the two kinds
    of error a request can end with, and the result of an operation that may fail. */
module Common {

  datatype Option<+T> = None | Some(value: T)

  type Email = string
  type UserId = string
  type ProductId = string

  /** An error raised while serving a request. Nest's ConflictException,
      BadRequestException, NotFoundException and UnauthorizedException are all
      HTTP exceptions; anything thrown by a foreign library (the database client,
      the password hasher) is an OtherError. */
  datatype Failure =
    | HttpException(status: int, message: string)
    | OtherError(message: string)

  datatype Result<+T> = Ok(value: T) | Err(error: Failure)

  const StatusBadRequest: int := 400
  const StatusUnauthorized: int := 401
  const StatusNotFound: int := 404
  const StatusConflict: int := 409
  const StatusInternalServerError: int := 500

  function BadRequest(message: string): Failure { HttpException(StatusBadRequest, message) }
  function Unauthorized(message: string): Failure { HttpException(StatusUnauthorized, message) }
  function NotFound(message: string): Failure { HttpException(StatusNotFound, message) }
  function Conflict(message: string): Failure { HttpException(StatusConflict, message) }
}
