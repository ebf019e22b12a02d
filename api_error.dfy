/**
 * The error value every service throws: its status code defaults to 500 when
 * the given code is missing or zero, and its status is "fail" for a client
 * error (4xx) and "error" otherwise. `Outcome` stands for "returns a value or
 * throws an ApiError".
 */
module ApiErrors {
  import opened Wrappers

  datatype Status = Fail | Error

  datatype ApiError = ApiError(statusCode: int, status: Status, message: string)

  /** The two HTTP codes the services throw with. */
  const NOT_FOUND: int := 404
  const BAD_REQUEST: int := 400

  /** JavaScript truthiness of a numeric argument that may be missing. */
  predicate Truthy(code: Option<int>) {
    code.Some? && code.value != 0
  }

  /** The constructor: `statusCode || 500`, and a 4xx test on the raw argument. */
  function NewApiError(statusCode: Option<int>, message: string): (e: ApiError)
    ensures e.message == message
    ensures statusCode.Some? && statusCode.value != 0 ==> e.statusCode == statusCode.value
    ensures statusCode.None? || statusCode == Some(0) ==> e.statusCode == 500
    ensures e.status == Fail <==> statusCode.Some? && 400 <= statusCode.value < 500
  {
    var code := if Truthy(statusCode) then statusCode.value else 500;
    var status := match statusCode
      case Some(c) => if 400 <= c < 500 then Fail else Error
      case None => Error;
    ApiError(code, status, message)
  }

  /** The status always agrees with the stored code, although it is computed from the raw argument. */
  lemma StatusAgreesWithCode(statusCode: Option<int>, message: string)
    ensures var e := NewApiError(statusCode, message);
      e.status == Fail <==> 400 <= e.statusCode < 500
  {
  }

  /** A missing code is a server error, and so is a zero code. */
  lemma MissingCodeIsServerError(message: string)
    ensures NewApiError(None, message) == ApiError(500, Error, message)
    ensures NewApiError(Some(0), message) == ApiError(500, Error, message)
  {
  }

  function NotFoundError(message: string): (e: ApiError)
    ensures e == ApiError(404, Fail, message)
  {
    NewApiError(Some(NOT_FOUND), message)
  }

  function BadRequestError(message: string): (e: ApiError)
    ensures e == ApiError(400, Fail, message)
  {
    NewApiError(Some(BAD_REQUEST), message)
  }

  /** A service call either returns a value or throws an ApiError. */
  datatype Outcome<+T> = Ok(value: T) | Err(error: ApiError)
}
