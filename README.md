# homework_bot in Dafny

A model of the parts of the homework_bot Telegram notifier that hold real
logic. The bot polls the Yandex Practicum homework API. The model covers:

- **Response object** (`HomeworkStatusesDto`, homework_statuses_dto.dfy).
  `HomeworkStatusesDTO` copies the `homeworks` value and checks that it is a
  list. It checks that every element is a dict and turns each element into a
  `HomeworkDTO` through `HomeworkDTO(**item)`. It then checks `current_date`.
  The class is a Dafny `class` with the two stored fields. The element loop
  is the method `ParseHomeworks`, proved against the function
  `ParsedHomeworks`. A Python constructor can raise, so construction is the
  static method `Create`, which returns the object or the exception.
- **API client** (`YandexPracticumClient`, client.py).
  - `homework_statuses` coerces `from_date` with `int()`, builds the URL and
    the params, and sends a GET with the `OAuth` header and a 15 second
    timeout.
  - `_request` maps what the transport did to the decoded body or to an
    exception. The requests `Session` is a transport function from the
    request to a `TransportOutcome`: a response (status, the decoded JSON
    if the body is JSON, the raw text), a timeout, or another failure.
- **Configuration check** (`Homework`, homework.dfy). `check_tokens` is a
  method that loops over the non-dunder attributes of `AppConfig` and builds
  the error message. The verdict table is a constant.
- **The two exception types** and their `__str__` (`YandexPracticumExceptions`,
  `BotExceptions`).
- **Python values** (`PyValue`, py_value.dfy): the decoded JSON values, and
  Python's `str()`, `repr()` and base-10 `int()` on them.
- `Wrappers` holds `Option`, `Result` and `Outcome`. A Python call that
  returns a value or raises is a `Result`. One that returns nothing or
  raises is an `Outcome`.

Each error kind records which Python exception it is raised as.
`HomeworkStatusesDto.PythonException` and the comments on
`YandexPracticumClient.ClientError` give the class.

## Behaviour worth noting

- The `homeworks` checks run before the `current_date` check.
  - A `homeworks` value without `.copy()` raises `AttributeError`.
  - A dict raises `TypeError`.
- A `HomeworkDTO` with a missing attribute is not rejected; the attribute is
  `''`. An unknown key raises `TypeError`.
- Any `from_date` that `int()` accepts is sent, negative values included.
- An error status is one that `raise_for_status` rejects, 400 to 599. Any
  other status with a JSON body, 201 for instance, is returned as a
  success.
- A JSON error body without `code` or `message` escapes as `KeyError`. One
  that is not a dict escapes as `TypeError`. Neither becomes the client's
  exception.
- A timeout carries the Russian message `Сервис недоступен`.

## Model

| member | source | states |
|---|---|---|
| HomeworkStatusesDto.HomeworkFromKeywords | dto/homework_statuses_dto.py:8-20 | The record is built iff every key is a parameter name. Otherwise the error is `TypeError` for the first key that is not. Each attribute is the given value, or `''` when its keyword is absent. |
| HomeworkStatusesDto.FirstUnexpectedKey | dto/homework_statuses_dto.py:48 | None iff every key names a parameter. Otherwise it is the first key that does not. |
| HomeworkStatusesDto.ParseHomeworks | dto/homework_statuses_dto.py:40-49 | The loop over the copied list returns exactly `ParsedHomeworks`: every record in order, or the first element's exception. |
| HomeworkStatusesDto.ParsedHomework | dto/homework_statuses_dto.py:46-48 | An element is rejected with its own `TypeError` iff it is not a dict. It is accepted iff it is a dict whose keys all name parameters. Every rejection is a `TypeError`. |
| HomeworkStatusesDto.ParsedResponse | dto/homework_statuses_dto.py:27-30 | On success the input was a list, `current_date` is valid, and the stored records are `ParsedHomeworks` of the list. The error is the `current_date` `ValueError` iff the list was accepted and `current_date` is not valid. |
| HomeworkStatusesDto.CurrentDateValid | dto/homework_statuses_dto.py:51-53 | `current_date` passes iff it is a bool or an int that is at least 0. |
| HomeworkStatusesDto.ParsedHomeworksOk | dto/homework_statuses_dto.py:44-49 | A list is accepted iff every element is. Then the result has the same length, and record i is built from element i. |
| HomeworkStatusesDto.ParsedHomeworksErr | dto/homework_statuses_dto.py:45-47 | A rejected list raises the exception of its first failing element, and every earlier element was accepted. No partial list is returned. |
| HomeworkStatusesDto.ErrorPersists | dto/homework_statuses_dto.py:45-47 | An exception raised for a prefix of the list is the exception for the whole list. |
| HomeworkStatusesDto.CollectedOk | dto/homework_statuses_dto.py:44-49 | The loop's result is Ok iff every step is. Then it holds each step's record, in order. |
| HomeworkStatusesDto.CollectedErr | dto/homework_statuses_dto.py:45-47 | A failing loop ends with the exception of its first failing step. |
| HomeworkStatusesDto.ParsedResponseOutcome | dto/homework_statuses_dto.py:27-30 | Without `.copy()` the error is `AttributeError`; a dict gives `TypeError`. A bad element gives `TypeError` whatever `current_date` is. For a good list the result is Ok iff `current_date` is valid, and the error is otherwise the `current_date` `ValueError`. On Ok the stored records match the elements one for one. |
| HomeworkStatusesDto.CurrentDateBoundary | dto/homework_statuses_dto.py:51-53 | An int `current_date` passes iff it is at least 0, so zero passes. A string or None never passes. |
| HomeworkStatusesDto.HomeworkStatusesDTO.constructor | dto/homework_statuses_dto.py:27-30 | Stores the parsed records and the given `current_date`, which is valid. |
| HomeworkStatusesDto.HomeworkStatusesDTO.Create | dto/homework_statuses_dto.py:24-38 | Raises exactly the exception `ParsedResponse` names. Otherwise it returns a new object whose `homeworks` are the parsed records and whose `currentDate` is the argument. |
| YandexPracticumClient.FromDateParam | yandex_practicum_api_client/client.py:31-34 | `int(from_date)` succeeds iff the value is an int (a bool is one) or a string `int()` parses, and gives that int. A string it cannot parse is the `ValueError`; any other value is a `TypeError`. |
| YandexPracticumClient.RaisesForStatus | yandex_practicum_api_client/client.py:18 | `raise_for_status` raises exactly for a status whose class digit is 4 or 5. |
| YandexPracticumClient.HttpErrorException | yandex_practicum_api_client/client.py:20-26 | The client's exception always carries the response's status. A body that is not JSON gives code None and the raw text. The exception is the client's own iff the body is not JSON, or is a dict with `code` and `message`. Otherwise it is the `TypeError` or the `KeyError` for `code`/`message`. |
| YandexPracticumClient.HomeworkStatuses | yandex_practicum_api_client/client.py:30-39 | The call returns the decoded body iff `from_date` coerces, the URL is set and the transport answers the request with a passing status and a JSON body. The value is that JSON. A request that cannot be built gives its own error. Once the request is built, the result is `Answer` of what the transport did, so the timeout, status and `KeyError` facts hold for the whole call. |
| YandexPracticumClient.AuthorizationHeader | yandex_practicum_api_client/client.py:13 | The header is `OAuth ` followed by the token, or by `None` when the token is unset. |
| YandexPracticumClient.HomeworkStatusesRequest | yandex_practicum_api_client/client.py:30-38 | A rejected `from_date` is the result before the URL is looked at. A missing base URL gives `TypeError`. Otherwise the request is a GET to the base URL + `homework_statuses/`, with the params exactly `from_date` = `int(from_date)`, the header and timeout 15. |
| YandexPracticumClient.FromDateAcceptsInts | yandex_practicum_api_client/client.py:31-32 | Every int passes unchanged, negative ones included. So does its decimal string. |
| YandexPracticumClient.ControlSeparatorRejected | yandex_practicum_api_client/client.py:31-34 | A `from_date` of U+001C followed by `5` is the `ValueError`, with or without a trailing U+3000, and no request is built. |
| YandexPracticumClient.NoRequestForBadFromDate | yandex_practicum_api_client/client.py:31-38 | When `int()` rejects `from_date`, the call fails the same way whatever the transport would answer, so no request matters. |
| YandexPracticumClient.Answer | yandex_practicum_api_client/client.py:15-28 | The body is returned unchanged iff the status passes `raise_for_status` and the body is JSON. A timeout gives the 504 exception. A connection failure escapes uncaught, and a passing status without a JSON body is the `ValueError` of `response.json()`. Every HTTP-error exception keeps the response's status. Every status the client's exception carries is 504 or 400-599. |
| YandexPracticumClient.TimeoutReport | yandex_practicum_api_client/client.py:27-28 | A timeout gives status 504, code None and message `Сервис недоступен`. It prints as `http_status: 504, code: None, message: Сервис недоступен`. |
| YandexPracticumClient.JsonErrorBody | yandex_practicum_api_client/client.py:20-24 | An error status with a JSON dict body carries that status and the body's `code` and `message`. A missing `code` (checked first) or `message` is a `KeyError`. A JSON body that is not a dict is a `TypeError`. |
| YandexPracticumClient.TextErrorBody | yandex_practicum_api_client/client.py:25-26 | An error status whose body is not JSON carries that status, code None and the raw text as the message. |
| YandexPracticumClient.ReportedStatus | yandex_practicum_api_client/client.py:20-28 | The printed form of every client exception reads back to the response's status, or to 504 for a timeout. |
| YandexPracticumExceptions.NewYandexPracticumException | yandex_practicum_api_client/exceptions.py:2-5 | The three fields are stored unchanged. `code` and `message` default to None. |
| YandexPracticumExceptions.Render | yandex_practicum_api_client/exceptions.py:7-9 | The text starts with `http_status: `. Then come `str()` of the status, `, code: `, `str()` of the code, `, message: ` and `str()` of the message. |
| YandexPracticumExceptions.RenderedStatusRoundTrip | yandex_practicum_api_client/exceptions.py:7-9 | The status can be read back from the printed text. |
| YandexPracticumExceptions.RenderDeterminesStatus | yandex_practicum_api_client/exceptions.py:7-9 | Two exceptions that print the same have the same status. |
| YandexPracticumExceptions.DefaultsRenderAsNone | yandex_practicum_api_client/exceptions.py:2-9 | A code and message left at their defaults print as the literal `None`. |
| BotExceptions.Render | exceptions.py:7-8 | The text is `IncorrectEnvironmentVariableValue: ` followed by the stored message, and nothing more. |
| BotExceptions.MessageOfRender | exceptions.py:4-8 | Dropping the class-name prefix from the printed text gives back the message. |
| BotExceptions.RenderOfMessageOf | exceptions.py:8 | Every text that starts with the prefix is the printed form of the message after it. |
| Homework.CheckTokens | homework.py:28-35 | Raises iff some non-dunder value is None or empty. The message is `ErrorMessage` of the filtered attributes. Otherwise it returns with no effect. |
| Homework.Config | homework.py:29 | The filtered attributes are never more than `vars(AppConfig)` holds. Which ones are kept is stated by `Homework.ConfigMeaning`. |
| Homework.ErrorMessage | homework.py:30-33 | The message built by the loop is empty or ends with a newline. |
| Homework.ConfigMeaning | homework.py:29 | The comprehension keeps exactly the attributes whose names do not start with `__`. |
| Homework.ErrorMessageLines | homework.py:30-33 | The message is exactly one `Не инициализировано значение переменной окружения {key}` line per unset value, in attribute order. |
| Homework.MissingKeysMeaning | homework.py:31-33 | A key is reported iff one of its values is unset. Every such key is reported, not only the first. |
| Homework.ErrorMessageEmpty | homework.py:31-35 | The message is empty iff every value is set. A non-empty message ends with a newline. |
| Homework.DundersNotReported | homework.py:29 | A name starting with `__` is never reported. |
| Homework.AppConfigChecked | config.py:8-12 | For `AppConfig`, the filtered attributes are exactly the four configuration values, in class-body order. `__module__` and `__doc__` are dropped. |
| Homework.VerdictKeys | homework.py:21-25 | The verdict table has exactly the keys `approved`, `reviewing` and `rejected`. |
| PyValue.ParseInt | yandex_practicum_api_client/client.py:32 | `int()` of a string that is empty or all whitespace raises. A string that parses holds at least one digit. |
| PyValue.IntToStringChars | yandex_practicum_api_client/exceptions.py:8-9 | `str()` of an int is non-empty and is all decimal digits, except a leading minus sign. |
| PyValue.Str | yandex_practicum_api_client/exceptions.py:8-9 | `str()` leaves a string as it is, writes `None` for None and the decimal digits for an int, and is `repr()` for every other value. |
| PyValue.Repr | yandex_practicum_api_client/exceptions.py:8-9 | `repr()` is never empty. It is `None` for None, puts a string between single quotes, and brackets a list with `[` `]` and a dict with `{` `}`. |
| PyValue.WhitespaceDependsOnAscii | yandex_practicum_api_client/client.py:32 | `int()` skips ASCII whitespace, and whitespace from U+0080 up (U+3000 here) in a string that holds a character outside ASCII. It never skips U+001C, whether or not the string is all ASCII. |
| PyValue.ParseIntRoundTrip | yandex_practicum_api_client/client.py:32 | `int(str(n)) == n` for every int. |
| PyValue.Lookup | yandex_practicum_api_client/client.py:24 | Finds a value iff some pair has the key. The value is that of the first such pair. |

## Left out

- The reading of the environment in config.py (`load_dotenv`, `os.getenv`) is I/O. Its result, `vars(AppConfig)`, is the input of `CheckTokens`. Of the entries Python adds, only `__module__` and `__doc__` are listed.
- `main` is left out. It is an endless loop with `time.time()`, `time.sleep`, `print` and a TeleBot, all I/O and timing.
- `send_message`, `check_response` and `parse_status` have no body.
- `get_api_answer` and the module constants `ENDPOINT` and `HEADERS` only pass values through.
- yandex_practicum_api_client.py is an unused draft, shadowed by the package of the same name.
- The session lifecycle (`Session()` creation, `__del__` closing it) is left out. So are the real timeout and the library's JSON decoding. The transport and the JSON decoding are the `transport` parameter and the `json` field of `TransportOutcome`.
- Floats (JSON numbers with a fraction or an exponent) are not values of the model. So `int()` of a float and a float `current_date` are not covered.
- PyValue.Repr: the escaping and quote choice `repr()` applies to strings holding quotes, backslashes or unprintable characters are not modelled.
- PyValue.ParseInt: left out are digits from other scripts, which `int()` also accepts, and Python's limit on the number of digits it converts (4300 by default).
- PyValue.IntToString: Python's `str()` of an int with more than 4300 digits raises `ValueError` (Python 3.11 and later); the model renders every int.
- PyValue.ParseIntRoundTrip: holds for every int here, while in Python 3.11 and later both `str()` and `int()` raise past 4300 digits.
- The texts of the `AttributeError`, `TypeError` and `KeyError` messages Python writes itself are left out; only the exception class is modelled. They depend on the Python version.
- "The caller's list is not modified" holds by construction: `Create` receives the list as a value and has no `modifies` clause.
- The `homeworks` and `current_date` properties are the fields of `HomeworkStatusesDTO`, read directly.
- The texts the DTO writes into its `TypeError` and `ValueError` messages, and the text of the `from_date` `ValueError`, are not modelled. Only the exception class of each error is kept.
- `RETRY_PERIOD` belongs to `main` and is left out with it.
- A JSON object whose key repeats is a `JObj` value, but never a Python dict: decoding keeps the last value, while `Lookup` reads the first pair. The model does not exclude such values, so `Lookup` matches Python only for objects without a repeated key.
- Homework.AppConfigVars: `vars(AppConfig)` is an input layout with no contract of its own; `Homework.AppConfigChecked` states what `check_tokens` sees from it.
- YandexPracticumExceptions.Render: "equal fields print equally" is not a lemma. `Render` is a function, so it holds by definition.
