/**
 * The response envelope and the `HttpResponse` helper that the router requires from
 * src/presentation/helpers/http-response.js. That file is not part of this model: its four
 * builders are given here with the status codes and bodies the router's tests assert.
 * The status codes are those of RFC 9110, sections 15.3.1 (200 OK), 15.5.1 (400 Bad Request),
 * 15.5.2 (401 Unauthorized) and 15.6.1 (500 Internal Server Error).
 */
module HttpResponse {
  import opened Options
  import opened ErrorValues
  import MissingParamError
  import UnauthorizedError
  import ServerError

  const StatusOk: int := 200
  const StatusBadRequest: int := 400
  const StatusUnauthorized: int := 401
  const StatusInternalServerError: int := 500

  /** A response body: an error object, or the `{ accessToken }` object of a successful login. */
  datatype Body = ErrorBody(error: ErrorValue) | AccessTokenBody(accessToken: string)

  /** The `{ statusCode, body }` envelope. */
  datatype Response = Response(statusCode: int, body: Body)

  /** `HttpResponse.badRequest(paramName)`: 400 with `new MissingParamError(paramName)`. */
  function BadRequest(paramName: string): (r: Response)
  {
    Response(StatusBadRequest, ErrorBody(MissingParamError.New(paramName)))
  }

  /** `HttpResponse.unauthorizedError()`: 401 with `new UnauthorizedError()`. */
  function Unauthorized(): (r: Response)
  {
    Response(StatusUnauthorized, ErrorBody(UnauthorizedError.New()))
  }

  /** `HttpResponse.serverError()`: 500 with `new ServerError()`. */
  function ServerFault(): (r: Response)
  {
    Response(StatusInternalServerError, ErrorBody(ServerError.New(None)))
  }

  /** `HttpResponse.ok({ accessToken })`: 200 with the given object as the body. */
  function Ok(accessToken: string): (r: Response)
  {
    Response(StatusOk, AccessTokenBody(accessToken))
  }

  /**
   * Because of the helper quirks, a 400 body and the 401 body are the same value for every
   * parameter name: the two responses differ only in their status code.
   */
  lemma BadRequestBodyIsUnauthorizedBody(paramName: string)
    ensures BadRequest(paramName).body == Unauthorized().body
    ensures BadRequest(paramName).statusCode != Unauthorized().statusCode
    ensures BadRequest("Email") == BadRequest("Password")
  {
    MissingParamError.SameAsUnauthorized(paramName);
    MissingParamError.IgnoresParamName("Email", "Password");
  }

  /** A 500 body is never a 400, 401 or 200 body. */
  lemma ServerFaultBodyIsDistinct(paramName: string, accessToken: string)
    ensures ServerFault().body != BadRequest(paramName).body
    ensures ServerFault().body != Unauthorized().body
    ensures ServerFault().body != Ok(accessToken).body
  {
    ServerError.DistinctFromOtherErrors(None, paramName, None);
  }

}
