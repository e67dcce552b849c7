# Error classification and request logging of the transaction-relay server

The server answers every HTTP request through two cross-cutting pieces. This
project models both of them in Dafny.

- **The catch-all exception filter** (`AllExceptionsFilter.catch`). It takes
  any thrown value and does four things:
  - It chooses a status: the exception's own status for an `HttpException`,
    500 for anything else.
  - It chooses a message: the exception's own message, or
    `"Internal server error"`.
  - It builds the error body. The `error` member is filled only for HTTP
    exceptions. The `stackTrace` member is filled only when `NODE_ENV` is
    `dev` and the value is an `Error` with a non-empty stack.
  - It logs, in order:
    1. the category of the first exported type guard that recognises the
       exception;
    2. a one-line summary;
    3. a detail line;
    4. `Request Details:`;
    5. the JSON dump of the request.

  It then sends the body with the chosen status.
- **The eight HTTP type guards** (`isBadRequest`, …, `isPayloadTooLarge`).
  Each one recognises an `HttpException` that carries one specific status.
- **The request-logging middleware** (`LoggerMiddleware.use`). It records the
  start time and registers a `finish` and a `close` handler on the response.
  Then it calls `next()`.
  - On `finish` it writes exactly one line describing the request. The line
    is at error level for every status from 400 up, and at log level below
    400.
  - On `close` it assigns the error message in `res.locals` to itself. This
    leaves `locals` unchanged.

What is proved about this model:
- **The guards are exclusive.** So the category logged does not depend on the
  order in which the guards are walked. A category is logged exactly when the
  thrown value is an HTTP exception with one of the eight statuses. The
  category text is the guard's export name without its leading `is`, followed
  by ` Exception`.
- **Non-HTTP failures log no category.** A failure that is not an HTTP
  exception is answered with 500, yet it logs no category at all.
- **The body matches its specification.** `Catch` sends exactly the body that
  `ErrorBody` describes, with the same status. It appends exactly the lines
  that `CatchLog` describes.
- **Both request lines share one rendering.** The filter's detail line and the
  middleware's completion line are the same field-list rendering of a request
  record:
  - the fields appear in a fixed order;
  - the `Error` field is present exactly when the error text is non-empty;
  - for a request whose URL was not rewritten, the two templates produce the
    same text when given the same timestamp, status, error text and elapsed
    time. For one failed request they are in general given different values:
    the filter writes the exception's message and the time measured inside
    `catch`, the middleware the response's status message and the time since
    `use`.
- **The dump is verbatim.** The request dump carries headers, body, query and
  params verbatim, in that order.
- **Rendered numbers identify their value.** An integer rendered by a template
  literal reads back as the same integer, so distinct numbers render
  distinctly. `String.prototype.replace` with a string pattern replaces only
  the first occurrence.

Some consequences of the code that a reader might not expect:
- **Nothing is redacted.** Headers, body, query and params are logged as
  they are (`ExceptionFilter.CatchLogLines`).
- **Error details cover every HTTP exception.** The body's `error` member
  holds `getResponse()` for every HTTP exception, whatever its status, not
  only for the eight recognised ones (`ExceptionFilter.ErrorBody`).
- **The guards never tie.** The guards are exclusive, so the order in which
  they are walked never decides the category (`HttpError.GuardsExclusive`,
  `ExceptionFilter.ClassificationOrderIrrelevant`).
- **Only `finish` writes a line.** The `close` handler changes nothing
  (`Middleware.LoggerMiddleware.OnClose`).
- **The finish handler reads the request late.** It keeps only the start
  time; the method, URL, IP, params, query, body and headers it logs are
  those of the request object when the response finishes
  (`Middleware.LoggerMiddleware.Dispatch`).

Files:
- `options.dfy`: the optional-value type.
- `text.dfy`: number rendering, `indexOf` and `replace`.
- `logging.dfy`: the logger and the shared request-record rendering.
- `http.dfy`: the request and response objects.
- `http_error.dfy`: the guards.
- `exception_filter.dfy`: the filter.
- `logger_middleware.dfy`: the middleware.

## Model

| member | source | states |
|---|---|---|
| Text.NatToString | packages/server/src/exception-filter/exception.filter.ts:117 | a natural number renders as a non-empty string of decimal digits with no leading zero |
| Text.IntToString | packages/server/src/exception-filter/exception.filter.ts:117 | an integer renders as a non-empty text that starts with a minus sign exactly when the number is negative |
| Text.NatToStringRoundTrip | packages/server/src/exception-filter/exception.filter.ts:117 | reading a rendered natural number back gives the number |
| Text.IntToStringRoundTrip | packages/server/src/exception-filter/exception.filter.ts:117 | reading a rendered integer (status or elapsed time) back gives the integer |
| Text.IntToStringInjective | packages/server/src/logger/logger.middleware.ts:42-44 | two integers with the same rendering are equal, so the status and elapsed time in a line identify their values |
| Text.IndexOfFrom | packages/server/src/exception-filter/exception.filter.ts:95 | the result is the first position at or after the start where the pattern occurs; none means the pattern occurs nowhere from there on |
| Text.ReplaceFirst | packages/server/src/exception-filter/exception.filter.ts:95 | `replace` with a string pattern substitutes the first occurrence only, or returns the string unchanged when the pattern does not occur; its behaviour is stated by `Text.ReplaceFirstAtStart` |
| Text.ReplaceFirstAtStart | packages/server/src/exception-filter/exception.filter.ts:95 | when the pattern begins the string, `replace` substitutes that occurrence and keeps the rest |
| Logging.Logger.Error | packages/server/src/exception-filter/exception.filter.ts:101-107 | an error-level call appends exactly one error line with the message and changes nothing else |
| Logging.Logger.Log | packages/server/src/exception-filter/exception.filter.ts:129-130 | a log-level call appends exactly one log line with the message |
| Logging.JoinFieldsSnoc | packages/server/src/logger/logger.middleware.ts:34-44 | a field appended to a non-empty list is written after the separator, at the end of the text |
| Logging.RecordFields | packages/server/src/logger/logger.middleware.ts:34-44 | a record has 9 fields, or 10 with an error text; URL is second and Status Code eighth; Error, when present, is ninth; Elapsed Time (the milliseconds with `ms`) is last |
| Logging.RecordNames | packages/server/src/logger/logger.middleware.ts:34-44 | the field names come in the fixed order Method, URL, IP, Params, Query, Body, Headers, Status Code, [Error], Elapsed Time, with Error present exactly when the error text is non-empty |
| Logging.RenderSnoc | packages/server/src/logger/logger.middleware.ts:34-44 | appending a field extends a rendered prefix by `" \| name: "` and the value |
| Logging.HeadFieldsText | packages/server/src/logger/logger.middleware.ts:34-42 | the eight head fields render as the template up to the status code |
| Logging.FieldsTextToError | packages/server/src/logger/logger.middleware.ts:34-43 | the head fields plus the optional Error field render as the template up to the conditional error segment |
| Logging.RenderRecordText | packages/server/src/logger/logger.middleware.ts:34-44 | the rendered record is the whole template: every value verbatim in the fixed order, the error segment only for a non-empty error text, elapsed time with `ms` at the end |
| Logging.JsonMembersSnoc | packages/server/src/exception-filter/exception.filter.ts:123-130 | a member appended to a non-empty object body is written after a comma, at the end |
| Logging.JsonSnoc | packages/server/src/exception-filter/exception.filter.ts:123-130 | appending a member extends a serialised prefix by `,"key":` and the value |
| Http.Response.Status | packages/server/src/exception-filter/exception.filter.ts:132 | `status(code)` sets the response status to the code |
| Http.Response.Json | packages/server/src/exception-filter/exception.filter.ts:132 | `json(b)` makes `b` the response body |
| Http.Response.On | packages/server/src/logger/logger.middleware.ts:29-60 | registering a handler appends it after those already registered |
| HttpError.IsBadRequest | packages/server/src/exception-filter/httpError.ts:19-26 | holds exactly for an HTTP exception with status 400 (stated through `HttpError.GuardMeaning`) |
| HttpError.IsNotFound | packages/server/src/exception-filter/httpError.ts:33-40 | holds exactly for an HTTP exception with status 404 |
| HttpError.IsUnauthorized | packages/server/src/exception-filter/httpError.ts:46-53 | holds exactly for an HTTP exception with status 401 |
| HttpError.IsForbidden | packages/server/src/exception-filter/httpError.ts:59-66 | holds exactly for an HTTP exception with status 403 |
| HttpError.IsInternalServerError | packages/server/src/exception-filter/httpError.ts:73-80 | holds exactly for an HTTP exception with status 500 |
| HttpError.IsConflict | packages/server/src/exception-filter/httpError.ts:82-87 | holds exactly for an HTTP exception with status 409 |
| HttpError.IsUnsupportedMediaType | packages/server/src/exception-filter/httpError.ts:89-96 | holds exactly for an HTTP exception with status 415 |
| HttpError.IsPayloadTooLarge | packages/server/src/exception-filter/httpError.ts:98-105 | holds exactly for an HTTP exception with status 413 |
| HttpError.Holds | packages/server/src/exception-filter/exception.filter.ts:94 | calling the guard exported under a name runs that guard; its meaning is `HttpError.GuardMeaning` |
| HttpError.Name | packages/server/src/exception-filter/httpError.ts:19-105 | every exported guard name is longer than two characters and starts with `is` |
| HttpError.GuardMeaning | packages/server/src/exception-filter/httpError.ts:19-105 | each guard holds exactly for an HTTP exception whose status is the guard's own status (400, 404, 401, 403, 500, 409, 415, 413) |
| HttpError.NonHttpExceptionMatchesNoGuard | packages/server/src/exception-filter/httpError.ts:19-105 | a value that is not an HTTP exception passes no guard |
| HttpError.GuardsExclusive | packages/server/src/exception-filter/httpError.ts:19-105 | no value passes two different guards |
| HttpError.SomeGuardHolds | packages/server/src/exception-filter/httpError.ts:19-105 | some guard holds exactly for an HTTP exception whose status is one of the eight recognised statuses |
| HttpError.ExportedListsEachGuardOnce | packages/server/src/exception-filter/httpError.ts:19-105 | the exported guards list each of the eight guards exactly once, under pairwise distinct names |
| ExceptionFilter.ConfigGet | packages/server/src/exception-filter/exception.filter.ts:78 | the configuration lookup yields the configured value when the key is set and nothing otherwise |
| ExceptionFilter.StatusOf | packages/server/src/exception-filter/exception.filter.ts:58-61 | the status is the HTTP exception's own, otherwise 500, and it is the status of whichever guard holds |
| ExceptionFilter.MessageOf | packages/server/src/exception-filter/exception.filter.ts:62-65 | the message is the HTTP exception's own, otherwise `Internal server error` |
| ExceptionFilter.ShowsStack | packages/server/src/exception-filter/exception.filter.ts:77-81 | the stack is shown exactly when `NODE_ENV` is `dev`, the value is an Error and its stack is non-empty (stated in `ExceptionFilter.ErrorBody`) |
| ExceptionFilter.ErrorBody | packages/server/src/exception-filter/exception.filter.ts:67-83 | the body carries status, timestamp, path and message; `error` is present exactly for HTTP exceptions and holds the exception's response; `stackTrace` is present exactly when `NODE_ENV` is `dev`, the value is an Error and its stack is non-empty, and then holds that stack |
| ExceptionFilter.FirstMatch | packages/server/src/exception-filter/exception.filter.ts:92-98 | the result is the index of a guard that holds with no earlier guard holding; none means no guard in the list holds |
| ExceptionFilter.Classification | packages/server/src/exception-filter/exception.filter.ts:92-98 | a selected guard is in the list and holds; when none is selected, no listed guard holds |
| ExceptionFilter.FirstMatchAt | packages/server/src/exception-filter/exception.filter.ts:92-98 | the loop's break index is the first match |
| ExceptionFilter.ClassificationIsTheHoldingGuard | packages/server/src/exception-filter/exception.filter.ts:92-98 | if a listed guard holds, the walk selects exactly that guard |
| ExceptionFilter.ClassificationOrderIrrelevant | packages/server/src/exception-filter/exception.filter.ts:85-98 | any two lists of the same guards select the same category |
| ExceptionFilter.ExportedClassification | packages/server/src/exception-filter/exception.filter.ts:85-98 | walking the exported guards selects a category exactly for an HTTP exception with a recognised status, and the category's status is the exception's |
| ExceptionFilter.CategoryLine | packages/server/src/exception-filter/exception.filter.ts:95 | the category text: the name with its first `is` removed, then ` Exception` (stated by `ExceptionFilter.CategoryLineNamesGuard`) |
| ExceptionFilter.CategoryLog | packages/server/src/exception-filter/exception.filter.ts:92-98 | at most one line, at error level, present exactly when some listed guard holds |
| ExceptionFilter.CategoryLineNamesGuard | packages/server/src/exception-filter/exception.filter.ts:95 | the category line is the guard's name without its leading `is`, followed by ` Exception` |
| ExceptionFilter.CategoryLogMeaning | packages/server/src/exception-filter/exception.filter.ts:92-98 | at most one category line is logged; one is logged exactly when some guard holds, and it names that guard |
| ExceptionFilter.NonHttpFailureHasNoCategory | packages/server/src/exception-filter/exception.filter.ts:58-98 | a non-HTTP failure is answered with 500 but fails the internal-server-error guard and logs no category |
| ExceptionFilter.SummaryLine | packages/server/src/exception-filter/exception.filter.ts:101-107 | the summary template: stamp, method, URL, bracketed status, `Error: ` and the message or `No error` for an empty message, elapsed time (used in `ExceptionFilter.CatchLogLines`) |
| ExceptionFilter.DetailLine | packages/server/src/exception-filter/exception.filter.ts:108-120 | the detail template with the request URL; its meaning is `ExceptionFilter.DetailLineIsRecord` |
| ExceptionFilter.DetailsDump | packages/server/src/exception-filter/exception.filter.ts:123-130 | the serialised request subset; its text is `ExceptionFilter.DetailsDumpVerbatim` |
| ExceptionFilter.FailureLog | packages/server/src/exception-filter/exception.filter.ts:100-130 | four lines: two at error level, then two at log level |
| ExceptionFilter.CatchLog | packages/server/src/exception-filter/exception.filter.ts:92-130 | four or five lines, five exactly when some guard holds; the second-to-last is `Request Details:` |
| ExceptionFilter.DetailLineIsRecord | packages/server/src/exception-filter/exception.filter.ts:108-120 | the detail line is the shared request-record rendering with the request URL, the status and the message as error text |
| ExceptionFilter.DetailsDumpVerbatim | packages/server/src/exception-filter/exception.filter.ts:123-130 | the dump is `{"headers":…,"body":…,"query":…,"params":…}` with each value verbatim, in that order |
| ExceptionFilter.CatchLogLines | packages/server/src/exception-filter/exception.filter.ts:92-130 | after the category come the summary, the detail line as a rendered record, `Request Details:` and the verbatim dump; both lines use the same status, message and elapsed time |
| ExceptionFilter.AllExceptionsFilter.constructor | packages/server/src/exception-filter/exception.filter.ts:34-39 | the filter keeps the logger and the configuration it is given |
| ExceptionFilter.AllExceptionsFilter.LogError | packages/server/src/exception-filter/exception.filter.ts:45-47 | logs the body's message as one error line |
| ExceptionFilter.AllExceptionsFilter.LogCategory | packages/server/src/exception-filter/exception.filter.ts:92-98 | the guard loop appends exactly the category lines of the first holding guard, and none when none holds |
| ExceptionFilter.AllExceptionsFilter.LogFailure | packages/server/src/exception-filter/exception.filter.ts:100-130 | appends summary, detail line, `Request Details:` and dump, in that order, with one elapsed time |
| ExceptionFilter.AllExceptionsFilter.Catch | packages/server/src/exception-filter/exception.filter.ts:53-133 | the logger gains exactly the category line (if any) and the four failure lines; the response body is the specified error body and the response status equals its status code |
| Middleware.ErrorMessageOf | packages/server/src/logger/logger.middleware.ts:32 | a missing status message becomes the empty text; a present one is kept |
| Middleware.FinishLevel | packages/server/src/logger/logger.middleware.ts:46-52 | the completion line is at error level exactly when the status is 400 or more |
| Middleware.RequestLogString | packages/server/src/logger/logger.middleware.ts:34-44 | the completion template with the original URL; its meaning is `Middleware.RequestLogStringIsRecord` |
| Middleware.RequestLogStringIsRecord | packages/server/src/logger/logger.middleware.ts:34-44 | the completion line is the shared request-record rendering with the original URL; it has an Error field exactly when the status message is non-empty |
| Middleware.DetailLineMatchesRequestLog | packages/server/src/logger/logger.middleware.ts:34-44 | for a request whose original URL is its URL, the filter's detail template and the completion template produce the same text when given the same timestamp, status, error text and elapsed time |
| Middleware.Next.Call | packages/server/src/logger/logger.middleware.ts:62 | each call of `next` is recorded with the number of handlers registered at that moment |
| Middleware.LoggerMiddleware.constructor | packages/server/src/logger/logger.middleware.ts:16-19 | the middleware keeps the logger service it is given |
| Middleware.LoggerMiddleware.Use | packages/server/src/logger/logger.middleware.ts:26-63 | registers the finish handler (holding only the start time), then the close handler, and then calls `next` exactly once, after both are registered |
| Middleware.LoggerMiddleware.OnFinish | packages/server/src/logger/logger.middleware.ts:29-53 | the finish handler appends exactly one line: the completion line for the request as it stands then, at the level the status calls for, with the elapsed time since the start |
| Middleware.LoggerMiddleware.OnClose | packages/server/src/logger/logger.middleware.ts:55-60 | the close handler leaves `res.locals` as it was |
| Middleware.LoggerMiddleware.Dispatch | packages/server/src/logger/logger.middleware.ts:29-60 | a finish event writes the one completion line for the request as it stands when the event fires; a close event writes nothing; neither changes `res.locals` |

## Left out

- Other server files are not part of this model: the contract service and
  controller, the application logger service, the module wiring and the
  bootstrap. The logger service is modelled only as a sink that appends
  levelled lines (`Logging.Logger`). Console and winston formatting, colours
  and the logger context name are not modelled.
- Clocks are inputs. Every `Date.now()` and `new Date().toISOString()`
  reading is given to the model:
  - in the filter, as a `Clock` value (start, body stamp, end, summary stamp,
    detail stamp, in the order `catch` reads them);
  - in the middleware, as `now` and `stamp` parameters.

  ISO-8601 formatting itself is not modelled.
- JSON serialisation of request data is an input. `JSON.stringify` of the
  request's params, query, body and headers is taken as already-rendered
  text. `getResponse()` is taken the same way. A value that `JSON.stringify`
  renders as `undefined` is not distinguished.
- Missing values are not distinguished from empty ones:
  - An absent stack and an empty stack are both the empty string; both are
    falsy.
  - `res.locals` is always a map from strings to strings.
  - `res.statusMessage` is an input. Node's default reason phrase for a status
    is not derived.
- `ExceptionFilter.AllExceptionsFilter.Catch`: the guard loop and the four
  logging calls are written as two helper methods (`LogCategory` and
  `LogFailure`). They are called in the source's order, so the appended lines
  are the same.
- The walk order of the exported guards is their declaration order. The order
  that module-namespace property enumeration gives at run time is not
  modelled. It cannot change the category, by
  `ExceptionFilter.ClassificationOrderIrrelevant`.
- The framework's dispatch is not modelled. Handlers run when the response
  emits an event, and `Middleware.LoggerMiddleware.Dispatch` runs one
  registered handler. Event emission order, the point at which the framework
  invokes the filter, and the `BaseExceptionFilter` superclass are not
  modelled.
- `ExceptionFilter.AllExceptionsFilter.LogError` is not called from `catch` in
  the source, and the model does not call it either.
- `Middleware.LoggerMiddleware.OnClose`: `locals` holds strings only. The
  source's truthiness test on a non-string error message is therefore not
  modelled.
- Integers are unbounded. Statuses and elapsed times are small in practice;
  JavaScript's floating-point number representation is not modelled.
