/** The exception the Yandex Practicum API client raises for a failed request. */
module YandexPracticumExceptions {
  import opened Wrappers
  import opened PyValue

  /**
   * `YandexPracticumException(http_status, code, message)`.  The client
   * always passes an int status; `code` and `message` are whatever the API's
   * error body held (or the literal the client supplies), so they are values.
   */
  datatype YandexPracticumException = YandexPracticumException(httpStatus: int, code: JValue, message: JValue)

  /** The constructor, with `code` and `message` defaulting to None. */
  function NewYandexPracticumException(httpStatus: int, code: JValue := JNull, message: JValue := JNull): (e: YandexPracticumException)
    ensures e.httpStatus == httpStatus && e.code == code && e.message == message
  {
    YandexPracticumException(httpStatus, code, message)
  }

  const StatusLabel := "http_status: "
  const CodeLabel := ", code: "
  const MessageLabel := ", message: "

  /** `__str__`: the three fields, each through `str()`, behind fixed labels. */
  function Render(e: YandexPracticumException): (s: string)
    ensures |StatusLabel| <= |s| && s[..|StatusLabel|] == StatusLabel
    ensures s[|StatusLabel|..] == IntToString(e.httpStatus) + CodeLabel + Str(e.code) + MessageLabel + Str(e.message)
  {
    StatusLabel + IntToString(e.httpStatus) + CodeLabel + Str(e.code) + MessageLabel + Str(e.message)
  }

  /** The part of `s` before its first comma. */
  function BeforeComma(s: string): (r: string)
    ensures |r| <= |s| && r == s[..|r|] && ',' !in r
    ensures |r| == |s| || s[|r|] == ','
  {
    if s == [] || s[0] == ',' then [] else [s[0]] + BeforeComma(s[1..])
  }

  /** Reads the HTTP status back from a rendered exception: the integer between the status label and the first comma. */
  function RenderedStatus(s: string): Option<int> {
    if |s| >= |StatusLabel| && s[..|StatusLabel|] == StatusLabel then ParseInt(BeforeComma(s[|StatusLabel|..]))
    else None
  }

  lemma {:induction false} BeforeCommaOfAppend(a: string, b: string)
    requires ',' !in a
    requires b != [] && b[0] == ','
    ensures BeforeComma(a + b) == a
  {
    if a != [] {
      assert (a + b)[0] == a[0];
      assert (a + b)[1..] == a[1..] + b;
      BeforeCommaOfAppend(a[1..], b);
    } else {
      assert a + b == b;
    }
  }

  /** The rendered text determines the status it was built from. */
  lemma RenderedStatusRoundTrip(e: YandexPracticumException)
    ensures RenderedStatus(Render(e)) == Some(e.httpStatus)
  {
    var digits := IntToString(e.httpStatus);
    var rest := CodeLabel + Str(e.code) + MessageLabel + Str(e.message);
    IntToStringChars(e.httpStatus);
    assert ',' !in digits by {
      forall i | 0 <= i < |digits| ensures digits[i] != ',' { }
    }
    assert Render(e)[|StatusLabel|..] == digits + rest;
    BeforeCommaOfAppend(digits, rest);
    ParseIntRoundTrip(e.httpStatus);
  }

  /** Two exceptions that render alike carry the same HTTP status. */
  lemma RenderDeterminesStatus(e1: YandexPracticumException, e2: YandexPracticumException)
    requires Render(e1) == Render(e2)
    ensures e1.httpStatus == e2.httpStatus
  {
    RenderedStatusRoundTrip(e1);
    RenderedStatusRoundTrip(e2);
  }

  /** Fields left at their defaults print as the literal `None`. */
  lemma DefaultsRenderAsNone(httpStatus: int)
    ensures Render(NewYandexPracticumException(httpStatus)) == "http_status: " + IntToString(httpStatus) + ", code: None, message: None"
  {
  }
}
