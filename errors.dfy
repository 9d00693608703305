/**
 * The application error type and the table that turns each error into an
 * HTTP status code and a client-facing message.
 */
module Errors {
  import opened ApiResponses

  /**
   * `AppError`. The payloads of the wrapped library errors are kept as their
   * text; only the variant decides the status and the message.
   */
  datatype AppError =
    | SqlError(detail: string)
    | SerdeError(detail: string)
    | CoinGeckoError(detail: string)
    | HttpError(detail: string)
    | Unauthorized(detail: string)
    | InternalServerError
    | TimeParseError(detail: string)
    | TimeFormatError(detail: string)
    | StrumParseError(detail: string)
    | DecimalError(detail: string)

  const BAD_REQUEST: nat := 400
  const UNAUTHORIZED: nat := 401
  const INTERNAL_SERVER_ERROR: nat := 500
  const BAD_GATEWAY: nat := 502

  const MSG_INTERNAL: string := "Internal Server Error"
  const MSG_INVALID_DATA: string := "Invalid data"
  const MSG_EXTERNAL: string := "Error communicating with external service"
  const MSG_INVALID_DATETIME: string := "Invalid datetime format"
  const MSG_FORMAT_DATETIME: string := "Error formatting datetime"
  const MSG_INVALID_ENUM: string := "Invalid enum value"
  const MSG_INVALID_DECIMAL: string := "Invalid decimal value"

  /** The messages a client can see for an error other than `Unauthorized`. */
  const FIXED_MESSAGES: set<string> :=
    {MSG_INTERNAL, MSG_INVALID_DATA, MSG_EXTERNAL, MSG_INVALID_DATETIME,
     MSG_FORMAT_DATETIME, MSG_INVALID_ENUM, MSG_INVALID_DECIMAL}

  /** `AppError::get_status_code_and_error_msg` (the logging it does is left out). */
  function StatusAndMessage(e: AppError): (r: (nat, string))
    ensures e.Unauthorized? <==> r.0 == UNAUTHORIZED
    ensures e.Unauthorized? ==> r.1 == e.detail
    ensures !e.Unauthorized? ==> r.1 in FIXED_MESSAGES
    ensures r.0 == INTERNAL_SERVER_ERROR <==> e.SqlError? || e.CoinGeckoError? || e.InternalServerError?
    ensures r.0 == BAD_GATEWAY <==> e.HttpError?
    ensures r.0 == INTERNAL_SERVER_ERROR ==> r.1 == MSG_INTERNAL
    ensures r.0 == BAD_GATEWAY ==> r.1 == MSG_EXTERNAL
    ensures r.0 == BAD_REQUEST <==>
              e.SerdeError? || e.TimeParseError? || e.TimeFormatError? || e.StrumParseError? || e.DecimalError?
  {
    match e
    case SqlError(_) => (INTERNAL_SERVER_ERROR, MSG_INTERNAL)
    case SerdeError(_) => (BAD_REQUEST, MSG_INVALID_DATA)
    case CoinGeckoError(_) => (INTERNAL_SERVER_ERROR, MSG_INTERNAL)
    case HttpError(_) => (BAD_GATEWAY, MSG_EXTERNAL)
    case Unauthorized(msg) => (UNAUTHORIZED, msg)
    case InternalServerError => (INTERNAL_SERVER_ERROR, MSG_INTERNAL)
    case TimeParseError(_) => (BAD_REQUEST, MSG_INVALID_DATETIME)
    case TimeFormatError(_) => (BAD_REQUEST, MSG_FORMAT_DATETIME)
    case StrumParseError(_) => (BAD_REQUEST, MSG_INVALID_ENUM)
    case DecimalError(_) => (BAD_REQUEST, MSG_INVALID_DECIMAL)
  }

  /** Two errors of the same variant. */
  predicate SameVariant(a: AppError, b: AppError) {
    a.SqlError? == b.SqlError? && a.SerdeError? == b.SerdeError? && a.CoinGeckoError? == b.CoinGeckoError?
    && a.HttpError? == b.HttpError? && a.Unauthorized? == b.Unauthorized?
    && a.InternalServerError? == b.InternalServerError? && a.TimeParseError? == b.TimeParseError?
    && a.TimeFormatError? == b.TimeFormatError? && a.StrumParseError? == b.StrumParseError?
    && a.DecimalError? == b.DecimalError?
  }

  /** Only `Unauthorized` lets its inner text through: for every other variant the payload is not seen. */
  lemma PayloadHidden(a: AppError, b: AppError)
    requires SameVariant(a, b) && !a.Unauthorized?
    ensures StatusAndMessage(a) == StatusAndMessage(b)
  {
  }

  /** The status and message of each error the `From` conversions produce. */
  lemma FromConversions(detail: string)
    ensures StatusAndMessage(SqlError(detail)) == (INTERNAL_SERVER_ERROR, MSG_INTERNAL)
    ensures StatusAndMessage(SerdeError(detail)) == (BAD_REQUEST, MSG_INVALID_DATA)
    ensures StatusAndMessage(TimeParseError(detail)) == (BAD_REQUEST, MSG_INVALID_DATETIME)
    ensures StatusAndMessage(TimeFormatError(detail)) == (BAD_REQUEST, MSG_FORMAT_DATETIME)
    ensures StatusAndMessage(HttpError(detail)) == (BAD_GATEWAY, MSG_EXTERNAL)
    ensures StatusAndMessage(StrumParseError(detail)) == (BAD_REQUEST, MSG_INVALID_ENUM)
    ensures StatusAndMessage(DecimalError(detail)) == (BAD_REQUEST, MSG_INVALID_DECIMAL)
  {
  }

  /**
   * `IntoResponse for AppError`: an error envelope holding exactly the status
   * and message of the table, sent with HTTP status 200.
   */
  function IntoResponse(e: AppError, now: nat): (h: HttpResponse<ApiResponse<()>>)
    ensures h.status == HTTP_OK
    ensures h.body.data.None? && |h.body.errors| == 1
    ensures (h.body.errors[0].statusCode, h.body.errors[0].message) == StatusAndMessage(e)
  {
    var (status, message) := StatusAndMessage(e);
    ApiResponses.IntoResponse(Error<()>(status, message, now))
  }
}
