/**
 * The response envelope of the API: a server time, a list of errors and an
 * optional payload, always sent with HTTP status 200.
 */
module ApiResponses {
  import opened Wrappers

  const HTTP_OK: nat := 200

  datatype ErrorResponse = ErrorResponse(message: string, statusCode: nat)

  datatype ApiResponse<T> = ApiResponse(unixTime: nat, errors: seq<ErrorResponse>, data: Option<T>)

  /** An HTTP response: a status and the JSON body it carries. */
  datatype HttpResponse<B> = HttpResponse(status: nat, body: B)

  /** No envelope carries a payload and errors at once. */
  predicate WellFormed<T>(r: ApiResponse<T>) {
    !(r.data.Some? && r.errors != [])
  }

  /** `ApiResponse::success`; `now` is the clock reading in seconds since the Unix epoch. */
  function Success<T>(data: T, now: nat): (r: ApiResponse<T>)
    ensures WellFormed(r)
    ensures r.errors == [] && r.data == Some(data) && r.unixTime == now
  {
    ApiResponse(now, [], Some(data))
  }

  /** `ApiResponse::error`: a single error entry and no payload. */
  function Error<T>(statusCode: nat, message: string, now: nat): (r: ApiResponse<T>)
    ensures WellFormed(r)
    ensures r.errors == [ErrorResponse(message, statusCode)] && r.data == None && r.unixTime == now
  {
    ApiResponse(now, [ErrorResponse(message, statusCode)], None)
  }

  /** `ApiResponse::errors`: the given error list, unchanged, and no payload. */
  function Errors<T>(errors: seq<ErrorResponse>, now: nat): (r: ApiResponse<T>)
    ensures WellFormed(r)
    ensures r.errors == errors && r.data == None && r.unixTime == now
  {
    ApiResponse(now, errors, None)
  }

  /** `IntoResponse for ApiResponse`: the envelope as the body, with status 200. */
  function IntoResponse<T>(r: ApiResponse<T>): (h: HttpResponse<ApiResponse<T>>)
    ensures h.status == HTTP_OK && h.body == r
  {
    HttpResponse(HTTP_OK, r)
  }

  /** Even an error envelope goes out as HTTP 200; its status code is only in the body. */
  lemma ErrorSentAsOk<T>(statusCode: nat, message: string, now: nat)
    ensures IntoResponse(Error<T>(statusCode, message, now)).status == HTTP_OK
    ensures IntoResponse(Error<T>(statusCode, message, now)).body.errors[0].statusCode == statusCode
  {
  }
}
