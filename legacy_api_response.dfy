/**
 * The older response envelope: a message or a payload, with its status code
 * stored in the body and also used as the HTTP status.
 */
module LegacyApiResponses {
  import opened Wrappers
  import ApiResponses

  datatype LegacyResponse<T> = LegacyResponse(message: Option<string>, statusCode: nat, unixTime: nat, data: Option<T>)

  /** `StatusCode::from_u16` accepts the three-digit codes. */
  predicate ValidStatus(code: nat) {
    100 <= code <= 999
  }

  /** `ApiResponse::success`: status 200, no message, the payload. */
  function Success<T>(data: T, now: nat): (r: LegacyResponse<T>)
    ensures r.statusCode == 200 && r.message == None && r.data == Some(data) && r.unixTime == now
  {
    LegacyResponse(None, 200, now, Some(data))
  }

  /** `ApiResponse::error`: status 500, the message, no payload. */
  function Error<T>(message: string, now: nat): (r: LegacyResponse<T>)
    ensures r.statusCode == 500 && r.message == Some(message) && r.data == None && r.unixTime == now
  {
    LegacyResponse(Some(message), 500, now, None)
  }

  /** `IntoResponse`: the stored status if it is a valid code, otherwise 500. */
  function IntoResponse<T>(r: LegacyResponse<T>): (h: ApiResponses.HttpResponse<LegacyResponse<T>>)
    ensures ValidStatus(r.statusCode) ==> h.status == r.statusCode
    ensures !ValidStatus(r.statusCode) ==> h.status == 500
    ensures h.body == r
  {
    ApiResponses.HttpResponse(if ValidStatus(r.statusCode) then r.statusCode else 500, r)
  }

  /** The constructors never set both a message and a payload, and their codes are sent as they are. */
  lemma ConstructorsConsistent<T>(data: T, message: string, now: nat)
    ensures !(Success(data, now).message.Some? && Success(data, now).data.Some?)
    ensures !(Error<T>(message, now).message.Some? && Error<T>(message, now).data.Some?)
    ensures IntoResponse(Success(data, now)).status == 200
    ensures IntoResponse(Error<T>(message, now)).status == 500
  {
  }
}
