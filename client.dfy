/**
 * The Yandex Practicum API client: how a `homework_statuses` call turns its
 * `from_date` into a request, and how it turns what the transport did into
 * the decoded body or an exception.  The HTTP session is left abstract: the
 * transport is a function from the request to its outcome.
 */
module YandexPracticumClient {
  import opened Wrappers
  import opened PyValue
  import opened YandexPracticumExceptions

  /** `TIMEOUT`: the seconds the session waits for the server. */
  const RequestTimeout := 15

  /** The status a timeout is reported with: 504 Gateway Timeout, section 15.6.5 of RFC 9110. */
  const GatewayTimeout := 504

  const ServiceUnavailableMessage := "Сервис недоступен"
  const StatusesPath := "homework_statuses/"

  /** A request as the session sends it; the only header the client sets is `Authorization`. */
  datatype Request = Request(
    httpMethod: string,
    url: string,
    params: map<string, int>,
    authorization: string,
    timeout: int)

  /**
   * What the transport did with a request: a response with its status, the
   * value `response.json()` decodes the body to (None when the body is not
   * JSON) and the raw text; a timeout; or another transport failure.
   */
  datatype TransportOutcome =
    | Responded(status: int, json: Option<JValue>, text: string)
    | TimedOut
    | ConnectionFailed

  /** The exceptions a `homework_statuses` call can end in. */
  datatype ClientError =
    | Practicum(exception: YandexPracticumException) // the client's own exception
    | FromDateNotUnixTime                             // ValueError: `int()` rejected the value
    | FromDateWrongType                               // TypeError from `int()` (None, a list, a dict), not caught
    | UrlMissing                                      // TypeError from `None + 'homework_statuses/'`
    | ErrorBodyMissingKey(key: string)                // KeyError escaping from `response['code']` or `response['message']`
    | ErrorBodyNotObject                              // TypeError escaping from subscripting a JSON body that is not a dict
    | BodyNotJson                                     // ValueError from `response.json()` on a successful response
    | TransportFailure                                // any other transport failure, not caught

  /** The session's `Authorization` header, `f'OAuth {PRACTICUM_TOKEN}'`. */
  function AuthorizationHeader(token: Option<string>): (h: string)
    ensures |h| >= 6 && h[..6] == "OAuth " && h[6..] == OptionalStr(token)
  {
    "OAuth " + OptionalStr(token)
  }

  /** `int(from_date)` inside `try ... except ValueError`. */
  function FromDateParam(fromDate: JValue): (r: Result<int, ClientError>)
    ensures r.Ok? <==> AsInt(fromDate).Some? || (fromDate.JStr? && ParseInt(fromDate.s).Some?)
    ensures r.Ok? && AsInt(fromDate).Some? ==> r.value == AsInt(fromDate).value
    ensures r.Ok? && fromDate.JStr? ==> r == Ok(ParseInt(fromDate.s).value)
    ensures r.Err? ==> (r.error == FromDateNotUnixTime <==> fromDate.JStr?)
    ensures r.Err? ==> r.error == FromDateNotUnixTime || r.error == FromDateWrongType
  {
    match fromDate
    case JInt(n) => Ok(n)
    case JBool(b) => Ok(if b then 1 else 0)
    case JStr(s) => (if ParseInt(s).Some? then Ok(ParseInt(s).value) else Err(FromDateNotUnixTime))
    case _ => Err(FromDateWrongType)
  }

  /**
   * The request `homework_statuses` sends: `from_date` is coerced first, then
   * the URL is built from the configured base, then a GET with exactly that
   * one parameter goes out through the session.
   */
  function HomeworkStatusesRequest(baseUrl: Option<string>, token: Option<string>, fromDate: JValue := JInt(0)): (r: Result<Request, ClientError>)
    ensures FromDateParam(fromDate).Err? ==> r == Err(FromDateParam(fromDate).error)
    ensures FromDateParam(fromDate).Ok? && baseUrl.None? ==> r == Err(UrlMissing)
    ensures r.Ok? <==> FromDateParam(fromDate).Ok? && baseUrl.Some?
    ensures r.Ok? ==>
              && r.value.httpMethod == "GET"
              && r.value.url == baseUrl.value + StatusesPath
              && r.value.params.Keys == {"from_date"}
              && r.value.params["from_date"] == FromDateParam(fromDate).value
              && r.value.authorization == AuthorizationHeader(token)
              && r.value.timeout == RequestTimeout
  {
    match FromDateParam(fromDate)
    case Err(e) => Err(e)
    case Ok(n) =>
      match baseUrl
      case None => Err(UrlMissing)
      case Some(base) => Ok(Request("GET", base + StatusesPath, map["from_date" := n], AuthorizationHeader(token), RequestTimeout))
  }

  /**
   * `response.raise_for_status()` raises `HTTPError` for a client or server
   * error status: one whose class digit is 4 or 5 (sections 15.5 and 15.6 of
   * RFC 9110).
   */
  function RaisesForStatus(status: int): (b: bool)
    ensures b <==> status / 100 == 4 || status / 100 == 5
  {
    400 <= status < 600
  }

  /** The exception for a timeout. */
  const TimeoutException := NewYandexPracticumException(GatewayTimeout, message := JStr(ServiceUnavailableMessage))

  /**
   * The `except HTTPError` branch: the body decoded as JSON must be a dict
   * with `code` and `message`; a body that is not JSON falls back to the raw
   * text as the message.
   */
  function HttpErrorException(status: int, json: Option<JValue>, text: string): (r: ClientError)
    ensures r.Practicum? ==> r.exception.httpStatus == status
    ensures json.None? ==> r == Practicum(YandexPracticumException(status, JNull, JStr(text)))
    ensures r.Practicum? <==>
              json.None? || (json.value.JObj? && Lookup(json.value.fields, "code").Some? && Lookup(json.value.fields, "message").Some?)
    ensures !r.Practicum? ==> r == ErrorBodyNotObject || r == ErrorBodyMissingKey("code") || r == ErrorBodyMissingKey("message")
  {
    match json
    case None => Practicum(NewYandexPracticumException(status, message := JStr(text)))
    case Some(JObj(fields)) =>
      (match Lookup(fields, "code")
       case None => ErrorBodyMissingKey("code")
       case Some(code) =>
         match Lookup(fields, "message")
         case None => ErrorBodyMissingKey("message")
         case Some(message) => Practicum(NewYandexPracticumException(status, code, message)))
    case Some(_) => ErrorBodyNotObject
  }

  /**
   * `_request` followed by `response.json()`: the decoded body of a
   * response whose status `raise_for_status` accepts, or the exception.
   */
  function Answer(o: TransportOutcome): (r: Result<JValue, ClientError>)
    ensures r.Ok? <==> o.Responded? && !RaisesForStatus(o.status) && o.json.Some?
    ensures r.Ok? ==> r.value == o.json.value
    ensures o.TimedOut? ==> r == Err(Practicum(TimeoutException))
    ensures o.ConnectionFailed? ==> r == Err(TransportFailure)
    ensures o.Responded? && !RaisesForStatus(o.status) && o.json.None? ==> r == Err(BodyNotJson)
    ensures o.Responded? && RaisesForStatus(o.status) && r.error.Practicum? ==> r.error.exception.httpStatus == o.status
    ensures r.Err? && r.error.Practicum? ==>
              r.error.exception.httpStatus == GatewayTimeout || RaisesForStatus(r.error.exception.httpStatus)
  {
    match o
    case TimedOut => Err(Practicum(TimeoutException))
    case ConnectionFailed => Err(TransportFailure)
    case Responded(status, json, text) =>
      if RaisesForStatus(status) then Err(HttpErrorException(status, json, text))
      else
        match json
        case None => Err(BodyNotJson)
        case Some(body) => Ok(body)
  }

  /**
   * `homework_statuses(from_date=0)` with the transport the session stands
   * for: the decoded body exactly when `from_date` coerces, the URL is set
   * and the transport answers the request with a passing status and a JSON
   * body.
   */
  function HomeworkStatuses(baseUrl: Option<string>, token: Option<string>, transport: Request -> TransportOutcome,
                            fromDate: JValue := JInt(0)): (r: Result<JValue, ClientError>)
    ensures r.Ok? <==>
              && FromDateParam(fromDate).Ok? && baseUrl.Some?
              && var o := transport(HomeworkStatusesRequest(baseUrl, token, fromDate).value);
                 o.Responded? && !RaisesForStatus(o.status) && o.json.Some?
    ensures r.Ok? ==> r.value == transport(HomeworkStatusesRequest(baseUrl, token, fromDate).value).json.value
    ensures HomeworkStatusesRequest(baseUrl, token, fromDate).Err? ==> r == Err(HomeworkStatusesRequest(baseUrl, token, fromDate).error)
    ensures HomeworkStatusesRequest(baseUrl, token, fromDate).Ok? ==>
              r == Answer(transport(HomeworkStatusesRequest(baseUrl, token, fromDate).value))
  {
    match HomeworkStatusesRequest(baseUrl, token, fromDate)
    case Err(e) => Err(e)
    case Ok(request) => Answer(transport(request))
  }

  // ---------------------------------------------------------------------
  // Properties

  /** An int passes unchanged, negative ones included, and so does any int written out in decimal. */
  lemma FromDateAcceptsInts(n: int)
    ensures FromDateParam(JInt(n)) == Ok(n)
    ensures FromDateParam(JStr(IntToString(n))) == Ok(n)
  {
    ParseIntRoundTrip(n);
  }

  /**
   * A string `from_date` led by the control character U+001C is rejected,
   * with or without a character outside ASCII in it: no request is built for it.
   */
  lemma ControlSeparatorRejected(baseUrl: Option<string>, token: Option<string>)
    ensures FromDateParam(JStr("\U{1C}5")) == Err(FromDateNotUnixTime)
    ensures HomeworkStatusesRequest(baseUrl, token, JStr("\U{1C}5")) == Err(FromDateNotUnixTime)
    ensures FromDateParam(JStr("\U{1C}5\U{3000}")) == Err(FromDateNotUnixTime)
    ensures HomeworkStatusesRequest(baseUrl, token, JStr("\U{1C}5\U{3000}")) == Err(FromDateNotUnixTime)
  {
    WhitespaceDependsOnAscii();
  }

  /** A rejected `from_date` ends the call before the transport is consulted: whatever it would answer, the result is the same. */
  lemma NoRequestForBadFromDate(baseUrl: Option<string>, token: Option<string>, fromDate: JValue,
                                t1: Request -> TransportOutcome, t2: Request -> TransportOutcome)
    requires FromDateParam(fromDate).Err?
    ensures HomeworkStatuses(baseUrl, token, t1, fromDate) == HomeworkStatuses(baseUrl, token, t2, fromDate)
                                                          == Err(FromDateParam(fromDate).error)
  {
  }

  lemma GatewayTimeoutDigits()
    ensures IntToString(GatewayTimeout) == "504"
  {
    assert NatToString(5) == "5";
    assert NatToString(50) == "50";
  }

  /** A timeout is reported as 504 with no code, and prints as such. */
  lemma TimeoutReport()
    ensures Answer(TimedOut) == Err(Practicum(YandexPracticumException(504, JNull, JStr("Сервис недоступен"))))
    ensures Render(TimeoutException) == StatusLabel + "504" + CodeLabel + "None" + MessageLabel + ServiceUnavailableMessage
  {
    GatewayTimeoutDigits();
  }

  /**
   * An error status with a JSON dict body carries the original status and
   * the body's `code` and `message`; a missing `code` (checked first) or
   * `message` escapes as `KeyError`, and a JSON body that is not a dict as
   * `TypeError`.
   */
  lemma JsonErrorBody(status: int, body: JValue, text: string)
    requires RaisesForStatus(status)
    ensures var r := Answer(Responded(status, Some(body), text));
            && (body.JObj? && Lookup(body.fields, "code").Some? && Lookup(body.fields, "message").Some? ==>
                  r == Err(Practicum(YandexPracticumException(status, Lookup(body.fields, "code").value,
                                                              Lookup(body.fields, "message").value))))
            && (body.JObj? && Lookup(body.fields, "code").None? ==> r == Err(ErrorBodyMissingKey("code")))
            && (body.JObj? && Lookup(body.fields, "code").Some? && Lookup(body.fields, "message").None? ==>
                  r == Err(ErrorBodyMissingKey("message")))
            && (!body.JObj? ==> r == Err(ErrorBodyNotObject))
  {
  }

  /** An error status whose body is not JSON carries the original status, no code, and the raw text as message. */
  lemma TextErrorBody(status: int, text: string)
    requires RaisesForStatus(status)
    ensures Answer(Responded(status, None, text)) == Err(Practicum(YandexPracticumException(status, JNull, JStr(text))))
  {
  }

  /** The status of every HTTP-error exception can be read back from its printed form. */
  lemma ReportedStatus(o: TransportOutcome)
    requires Answer(o).Err? && Answer(o).error.Practicum?
    ensures o.Responded? ==> RenderedStatus(Render(Answer(o).error.exception)) == Some(o.status)
    ensures o.TimedOut? ==> RenderedStatus(Render(Answer(o).error.exception)) == Some(GatewayTimeout)
  {
    RenderedStatusRoundTrip(Answer(o).error.exception);
  }
}
