/**
 * The HTTP errors the endpoints raise: a status code and a detail message.
 */
module Http {
  const BadRequest: nat := 400
  const Unauthorized: nat := 401
  const Forbidden: nat := 403
  const TooManyRequests: nat := 429
  const InternalServerError: nat := 500
  const ServiceUnavailable: nat := 503

  datatype HttpError = HttpError(status: nat, detail: string)
}
