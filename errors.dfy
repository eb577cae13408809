/**
 * The error values of the client (errors.go): the construction errors, the
 * closed set of API errors whose text is the server's error code, and the
 * translator `wrapAPIError` from a decoded error body to one of them.
 */
module Errors {

  /** One of the package-level `apiErr…` values; each is `errors.New(code)`. */
  datatype ApiError =
    | UnknownError
    | InvalidCountry
    | InvalidParams
    | RequiredField
    | DeliveryMismatch
    | InsufficientStops
    | TooManyStops
    | InvalidPaymentMethod
    | InvalidLocale
    | InvalidPhoneNumber
    | InvalidScheduleTime
    | InvalidServiceType
    | InvalidSpecialRequest
    | OutOfServiceArea
    | ReverseGeocodeFailure
    | InsufficientCredit
    | InvalidCurrency
    | PriceMismatch
    | CancellationForbidden
    | TooManyRequests

  /**
   * Every error a client operation can return. `Foreign` stands for an error
   * value made outside this package (a caller's option, the JSON decoder);
   * its text is carried along unchanged.
   */
  datatype Error =
    | CredentialsMissing
    | BaseURLMissing
    | Api(api: ApiError)
    | Unauthorized
    | Foreign(text: string)

  /** The decoded error body of a 402 or 409 response; JSON key "message". */
  datatype ErrorResponse = ErrorResponse(message: string)

  /** The `Error()` text of each API error value. */
  function Text(e: ApiError): (code: string)
    ensures |code| > 4 && code[..4] == "ERR_"
  {
    match e
    case UnknownError => "ERR_UNKNOWN"
    case InvalidCountry => "ERR_INVALID_COUNTRY"
    case InvalidParams => "ERR_INVALID_PARAMS"
    case RequiredField => "ERR_REQUIRED_FIELD"
    case DeliveryMismatch => "ERR_DELIVERY_MISMATCH"
    case InsufficientStops => "ERR_INSUFFICIENT_STOPS"
    case TooManyStops => "ERR_TOO_MANY_STOPS"
    case InvalidPaymentMethod => "ERR_INVALID_PAYMENT_METHOD"
    case InvalidLocale => "ERR_INVALID_LOCALE"
    case InvalidPhoneNumber => "ERR_INVALID_PHONE_NUMBER"
    case InvalidScheduleTime => "ERR_INVALID_SCHEDULE_TIME"
    case InvalidServiceType => "ERR_INVALID_SERVICE_TYPE"
    case InvalidSpecialRequest => "ERR_INVALID_SPECIAL_REQUEST"
    case OutOfServiceArea => "ERR_OUT_OF_SERVICE_AREA"
    case ReverseGeocodeFailure => "ERR_REVERSE_GEOCODE_FAILURE"
    case InsufficientCredit => "ERR_INSUFFICIENT_CREDIT"
    case InvalidCurrency => "ERR_INVALID_CURRENCY"
    case PriceMismatch => "ERR_PRICE_MISMATCH"
    case CancellationForbidden => "ERR_CANCELLATION_FORBIDDEN"
    case TooManyRequests => "ERR_TOO_MANY_REQUESTS"
  }

  /** The API errors the translator recognises by their code. */
  predicate Recognized(e: ApiError) {
    e != UnknownError && e != TooManyRequests
  }

  /** The 18 server codes the translator's switch lists. */
  const RecognizedCodes: set<string> := {
    "ERR_INVALID_COUNTRY", "ERR_INVALID_PARAMS", "ERR_REQUIRED_FIELD",
    "ERR_DELIVERY_MISMATCH", "ERR_INSUFFICIENT_STOPS", "ERR_TOO_MANY_STOPS",
    "ERR_INVALID_PAYMENT_METHOD", "ERR_INVALID_LOCALE", "ERR_INVALID_PHONE_NUMBER",
    "ERR_INVALID_SCHEDULE_TIME", "ERR_INVALID_SERVICE_TYPE", "ERR_INVALID_SPECIAL_REQUEST",
    "ERR_OUT_OF_SERVICE_AREA", "ERR_REVERSE_GEOCODE_FAILURE", "ERR_INSUFFICIENT_CREDIT",
    "ERR_INVALID_CURRENCY", "ERR_PRICE_MISMATCH", "ERR_CANCELLATION_FORBIDDEN"
  }

  /**
   * `wrapAPIError`: a recognised code yields the error whose text is that
   * code; any other message, including "ERR_TOO_MANY_REQUESTS", yields the
   * unknown error.
   */
  function WrapAPIError(resp: ErrorResponse): (e: ApiError)
    ensures resp.message in RecognizedCodes ==> Recognized(e) && Text(e) == resp.message
    ensures resp.message !in RecognizedCodes ==> e == UnknownError
  {
    match resp.message
    case "ERR_INVALID_COUNTRY" => InvalidCountry
    case "ERR_INVALID_PARAMS" => InvalidParams
    case "ERR_REQUIRED_FIELD" => RequiredField
    case "ERR_DELIVERY_MISMATCH" => DeliveryMismatch
    case "ERR_INSUFFICIENT_STOPS" => InsufficientStops
    case "ERR_TOO_MANY_STOPS" => TooManyStops
    case "ERR_INVALID_PAYMENT_METHOD" => InvalidPaymentMethod
    case "ERR_INVALID_LOCALE" => InvalidLocale
    case "ERR_INVALID_PHONE_NUMBER" => InvalidPhoneNumber
    case "ERR_INVALID_SCHEDULE_TIME" => InvalidScheduleTime
    case "ERR_INVALID_SERVICE_TYPE" => InvalidServiceType
    case "ERR_INVALID_SPECIAL_REQUEST" => InvalidSpecialRequest
    case "ERR_OUT_OF_SERVICE_AREA" => OutOfServiceArea
    case "ERR_REVERSE_GEOCODE_FAILURE" => ReverseGeocodeFailure
    case "ERR_INSUFFICIENT_CREDIT" => InsufficientCredit
    case "ERR_INVALID_CURRENCY" => InvalidCurrency
    case "ERR_PRICE_MISMATCH" => PriceMismatch
    case "ERR_CANCELLATION_FORBIDDEN" => CancellationForbidden
    case _ => UnknownError
  }

  /** The recognised codes are exactly the texts of the recognised errors. */
  lemma RecognizedCodesAreTexts(e: ApiError)
    ensures Recognized(e) <==> Text(e) in RecognizedCodes
  {
    match e
    case UnknownError =>
      assert Text(e) !in RecognizedCodes by { NotRecognizedCode(Text(e)); }
    case TooManyRequests =>
      assert Text(e) !in RecognizedCodes by { NotRecognizedCode(Text(e)); }
    case _ =>
  }

  /** Neither "ERR_UNKNOWN" nor "ERR_TOO_MANY_REQUESTS" is a listed code. */
  lemma NotRecognizedCode(s: string)
    requires s == "ERR_UNKNOWN" || s == "ERR_TOO_MANY_REQUESTS"
    ensures s !in RecognizedCodes
  {
  }

  /** Every listed code is the text of a recognised error. */
  lemma ListedCodesAreTexts(s: string)
    requires s in RecognizedCodes
    ensures exists e :: Recognized(e) && Text(e) == s
  {
    var e := WrapAPIError(ErrorResponse(s));
    assert Recognized(e) && Text(e) == s;
  }

  /**
   * Round trip: translating the text of any error other than
   * TooManyRequests gives that error back (for UnknownError through the
   * fallback).
   */
  lemma WrapText(e: ApiError)
    requires e != TooManyRequests
    ensures WrapAPIError(ErrorResponse(Text(e))) == e
  {
    if e == UnknownError {
      NotRecognizedCode(Text(e));
    }
  }

  /** "ERR_TOO_MANY_REQUESTS" is not in the switch: it maps to the unknown error. */
  lemma TooManyRequestsCodeIsUnknown()
    ensures WrapAPIError(ErrorResponse(Text(TooManyRequests))) == UnknownError
  {
    NotRecognizedCode(Text(TooManyRequests));
  }

  /** The translator never produces the too-many-requests error. */
  lemma WrapNeverTooManyRequests(resp: ErrorResponse)
    ensures WrapAPIError(resp) != TooManyRequests
  {
  }

  /** Distinct recognised codes give distinct errors. */
  lemma WrapInjective(a: ErrorResponse, b: ErrorResponse)
    requires a.message in RecognizedCodes && b.message in RecognizedCodes
    requires a.message != b.message
    ensures WrapAPIError(a) != WrapAPIError(b)
  {
  }

  /** The error texts are pairwise distinct. */
  lemma TextInjective(a: ApiError, b: ApiError)
    requires Text(a) == Text(b)
    ensures a == b
  {
    if a == TooManyRequests || b == TooManyRequests {
      if a != b {
        // the other one would translate both to itself and to UnknownError
        WrapText(if a == TooManyRequests then b else a);
        TooManyRequestsCodeIsUnknown();
      }
    } else {
      WrapText(a);
      WrapText(b);
    }
  }
}
