/**
 * The catch-all exception filter: turns any thrown value into an error
 * response, logs the first matching HTTP-exception category, a summary line,
 * a detail line and a dump of the request, and sends the response.
 */
module ExceptionFilter {
  import opened Options
  import opened Text
  import opened Logging
  import opened Http
  import opened HttpError

  const DEFAULT_MESSAGE := "Internal server error"

  /**
   * The clock readings `catch` takes, in the order it takes them: the start
   * time, the body's ISO timestamp, the end time, and the ISO timestamps of
   * the summary and detail lines.
   */
  datatype Clock = Clock(start: int, bodyStamp: string, end: int, summaryStamp: string, detailStamp: string)

  /** `configService.get(key)`: the configured value, or undefined. */
  function ConfigGet(config: map<string, string>, key: string): (r: Option<string>)
    ensures r.Some? <==> key in config
    ensures r.Some? ==> r.value == config[key]
  {
    if key in config then Some(config[key]) else None
  }

  /** The response status: the exception's own for an HTTP exception, otherwise 500. */
  function StatusOf(e: Thrown): (s: int)
    ensures e.HttpException? ==> s == e.status
    ensures !e.HttpException? ==> s == INTERNAL_SERVER_ERROR
    ensures forall g :: Holds(g, e) ==> s == Code(g)
  {
    if e.HttpException? then e.status else INTERNAL_SERVER_ERROR
  }

  /** The response message: the exception's own for an HTTP exception, otherwise a fixed text. */
  function MessageOf(e: Thrown): (m: string)
    ensures e.HttpException? ==> m == e.message
    ensures !e.HttpException? ==> m == "Internal server error"
  {
    if e.HttpException? then e.message else DEFAULT_MESSAGE
  }

  /** The stack goes into the body only in the development environment, for an error with a stack. */
  predicate ShowsStack(config: map<string, string>, e: Thrown) {
    ConfigGet(config, "NODE_ENV") == Some("dev") && e.IsError() && e.stack != ""
  }

  /** The error body `catch` sends for `e` on a request to `path`. */
  function ErrorBody(e: Thrown, path: string, config: map<string, string>, stamp: string): (r: ErrorResponse)
    ensures r.statusCode == StatusOf(e) && r.path == path && r.timestamp == stamp
    ensures r.message == MessageOf(e)
    ensures r.error.Some? <==> e.HttpException?
    ensures e.HttpException? ==> r.error == Some(e.response)
    ensures r.stackTrace.Some? <==>
      ("NODE_ENV" in config && config["NODE_ENV"] == "dev" && e.IsError() && e.stack != "")
    ensures r.stackTrace.Some? ==> r.stackTrace.value == e.stack
  {
    ErrorResponse(StatusOf(e), stamp, path, MessageOf(e),
      if e.HttpException? then Some(e.response) else None,
      if ShowsStack(config, e) then Some(e.stack) else None)
  }

  /** The index of the first guard in `gs` that holds of `e`, if any. */
  function FirstMatch(gs: seq<Guard>, e: Thrown): (r: Option<nat>)
    ensures r.Some? ==> r.value < |gs| && Holds(gs[r.value], e)
    ensures r.Some? ==> forall j :: 0 <= j < r.value ==> !Holds(gs[j], e)
    ensures r.None? ==> forall j :: 0 <= j < |gs| ==> !Holds(gs[j], e)
  {
    if gs == [] then None
    else if Holds(gs[0], e) then Some(0)
    else match FirstMatch(gs[1..], e)
      case None => None
      case Some(k) => Some(k + 1)
  }

  /** The category `catch` logs for `e` when it walks the guards `gs`. */
  function Classification(gs: seq<Guard>, e: Thrown): (r: Option<Guard>)
    ensures r.Some? ==> r.value in gs && Holds(r.value, e)
    ensures r.None? ==> forall g :: g in gs ==> !Holds(g, e)
  {
    match FirstMatch(gs, e)
    case None => None
    case Some(k) => Some(gs[k])
  }

  lemma FirstMatchAt(gs: seq<Guard>, e: Thrown, i: nat)
    requires i < |gs| && Holds(gs[i], e)
    requires forall j :: 0 <= j < i ==> !Holds(gs[j], e)
    ensures FirstMatch(gs, e) == Some(i)
  {
  }

  /** Because the guards are exclusive, the category is the one guard in the list that holds. */
  lemma ClassificationIsTheHoldingGuard(gs: seq<Guard>, e: Thrown, g: Guard)
    requires g in gs && Holds(g, e)
    ensures Classification(gs, e) == Some(g)
  {
    var i :| 0 <= i < |gs| && gs[i] == g;
    if FirstMatch(gs, e).Some? {
      var k := FirstMatch(gs, e).value;
      if gs[k] != g {
        GuardsExclusive(gs[k], g, e);
      }
    }
  }

  /** The order in which the guards are walked does not change the category logged. */
  lemma ClassificationOrderIrrelevant(gs1: seq<Guard>, gs2: seq<Guard>, e: Thrown)
    requires forall g :: g in gs1 <==> g in gs2
    ensures Classification(gs1, e) == Classification(gs2, e)
  {
    match Classification(gs1, e)
    case Some(g) =>
      ClassificationIsTheHoldingGuard(gs2, e, g);
    case None =>
      match Classification(gs2, e)
      case None =>
      case Some(g) =>
        ClassificationIsTheHoldingGuard(gs1, e, g);
  }

  /** Walking the exported guards finds a category exactly for the eight recognised statuses, and it is the one for the exception's status. */
  lemma ExportedClassification(e: Thrown)
    ensures Classification(Exported, e).Some? <==> e.HttpException? && e.status in RecognisedStatuses
    ensures Classification(Exported, e).Some? ==> Code(Classification(Exported, e).value) == e.status
  {
    ExportedListsEachGuardOnce();
    SomeGuardHolds(e);
    forall g | Holds(g, e)
      ensures e.HttpException? && e.status == Code(g)
    {
      GuardMeaning(g, e);
    }
    if e.HttpException? && e.status in RecognisedStatuses {
      var g :| Holds(g, e);
      ClassificationIsTheHoldingGuard(Exported, e, g);
    }
  }

  /** `${name.replace('is', '')} Exception` */
  function CategoryLine(name: string): string {
    ReplaceFirst(name, "is", "") + " Exception"
  }

  /** The category line is the guard's name without its leading "is". */
  lemma CategoryLineNamesGuard(g: Guard)
    ensures CategoryLine(Name(g)) == Name(g)[2..] + " Exception"
  {
    ReplaceFirstAtStart(Name(g), "is", "");
  }

  /** The category lines logged: none, or the line for the first guard that holds. */
  function CategoryLog(gs: seq<Guard>, e: Thrown): (r: seq<LogLine>)
    ensures |r| <= 1
    ensures r != [] <==> exists g :: g in gs && Holds(g, e)
    ensures forall i :: 0 <= i < |r| ==> r[i].level == Error
  {
    match Classification(gs, e)
    case None => []
    case Some(g) => [LogLine(Error, CategoryLine(Name(g)))]
  }

  /** The one-line summary of a failed request. */
  function SummaryLine(stamp: string, verb: string, url: string, status: int, message: string, elapsed: int): string {
    "[" + stamp + "] " + verb + " " + url + " [" + IntToString(status) + "] - "
    + (if message != "" then "Error: " + message else "No error")
    + " - Elapsed Time: " + IntToString(elapsed) + "ms"
  }

  /** The detail line of a failed request. */
  function DetailLine(stamp: string, req: Request, status: int, message: string, elapsed: int): string {
    "[" + stamp + "] Method: " + req.verb + " | URL: " + req.url + " | IP: " + req.ip
    + " | Params: " + req.params + " | Query: " + req.query + " | Body: " + req.body
    + " | Headers: " + req.headers + " | Status Code: " + IntToString(status)
    + (if message != "" then " | Error: " + message else "")
    + " | Elapsed Time: " + IntToString(elapsed) + "ms"
  }

  /** `JSON.stringify({headers, body, query, params})` of the request. */
  function DetailsDump(req: Request): string {
    JsonObject([("headers", req.headers), ("body", req.body), ("query", req.query), ("params", req.params)])
  }

  /** The lines `catch` writes after the category: summary, detail line and request dump. */
  function FailureLog(req: Request, status: int, message: string, clock: Clock): (r: seq<LogLine>)
    ensures |r| == 4
    ensures r[0].level == Error && r[1].level == Error && r[2].level == Log && r[3].level == Log
  {
    var elapsed := clock.end - clock.start;
    [ LogLine(Error, SummaryLine(clock.summaryStamp, req.verb, req.url, status, message, elapsed)),
      LogLine(Error, DetailLine(clock.detailStamp, req, status, message, elapsed)),
      LogLine(Log, "Request Details:"),
      LogLine(Log, DetailsDump(req)) ]
  }

  /** Everything `catch` writes to its logger, in order. */
  function CatchLog(e: Thrown, req: Request, clock: Clock): (r: seq<LogLine>)
    ensures 4 <= |r| <= 5
    ensures |r| == 5 <==> exists g :: Holds(g, e)
    ensures r[|r| - 2] == LogLine(Log, "Request Details:")
  {
    ExportedListsEachGuardOnce();
    CategoryLog(Exported, e) + FailureLog(req, StatusOf(e), MessageOf(e), clock)
  }

  /** The record a failed request's detail line shows. */
  function FailureRecord(req: Request, status: int, message: string, elapsed: int): RequestRecord {
    RequestRecord(req.verb, req.url, req.ip, req.params, req.query, req.body, req.headers, status, message, elapsed)
  }

  /** The detail line is the shared request-record rendering, fields in the fixed order. */
  lemma DetailLineIsRecord(stamp: string, req: Request, status: int, message: string, elapsed: int)
    ensures DetailLine(stamp, req, status, message, elapsed)
         == RenderRecord(stamp, FailureRecord(req, status, message, elapsed))
  {
    RenderRecordText(stamp, FailureRecord(req, status, message, elapsed));
  }

  /** The request dump carries headers, body, query and params verbatim, in that order. */
  lemma DetailsDumpVerbatim(req: Request)
    ensures DetailsDump(req) ==
      "{\"headers\":" + req.headers + ",\"body\":" + req.body
      + ",\"query\":" + req.query + ",\"params\":" + req.params + "}"
  {
    var m1 := [("headers", req.headers)];
    var t1 := "{\"headers\":" + req.headers;
    assert "{" + JsonMembers(m1) == t1;
    var m2, t2 := m1 + [("body", req.body)], t1 + ",\"body\":" + req.body;
    JsonSnoc(m1, "body", req.body, ",\"body\":", t1);
    var m3, t3 := m2 + [("query", req.query)], t2 + ",\"query\":" + req.query;
    JsonSnoc(m2, "query", req.query, ",\"query\":", t2);
    var m4, t4 := m3 + [("params", req.params)], t3 + ",\"params\":" + req.params;
    JsonSnoc(m3, "params", req.params, ",\"params\":", t3);
    assert m4 == [("headers", req.headers), ("body", req.body), ("query", req.query), ("params", req.params)];
  }

  /** Logging after the category: at most one category line, present exactly when some guard holds, naming that guard. */
  lemma CategoryLogMeaning(e: Thrown)
    ensures |CategoryLog(Exported, e)| <= 1
    ensures CategoryLog(Exported, e) != [] <==> exists g :: Holds(g, e)
    ensures forall g :: Holds(g, e) ==>
      CategoryLog(Exported, e) == [LogLine(Error, Name(g)[2..] + " Exception")]
  {
    ExportedListsEachGuardOnce();
    forall g | Holds(g, e)
      ensures CategoryLog(Exported, e) == [LogLine(Error, Name(g)[2..] + " Exception")]
    {
      ClassificationIsTheHoldingGuard(Exported, e, g);
      CategoryLineNamesGuard(g);
    }
  }

  /** A failure that is not an HTTP exception is answered with 500 but logs no category, not even the internal-server-error one. */
  lemma NonHttpFailureHasNoCategory(e: Thrown)
    requires !e.HttpException?
    ensures StatusOf(e) == INTERNAL_SERVER_ERROR
    ensures !IsInternalServerError(e)
    ensures CategoryLog(Exported, e) == []
  {
    if CategoryLog(Exported, e) != [] {
      CategoryLogMeaning(e);
      var g :| Holds(g, e);
      NonHttpExceptionMatchesNoGuard(g, e);
    }
  }

  /**
   * After the category line come the summary, the detail line and the request dump.
   * Summary and detail line report the same status, message and elapsed time, and the
   * detail line and the dump carry the request's params, query, body and headers unredacted.
   */
  lemma CatchLogLines(e: Thrown, req: Request, clock: Clock)
    ensures
      var elapsed := clock.end - clock.start;
      CatchLog(e, req, clock) == CategoryLog(Exported, e) + [
        LogLine(Error, SummaryLine(clock.summaryStamp, req.verb, req.url, StatusOf(e), MessageOf(e), elapsed)),
        LogLine(Error, RenderRecord(clock.detailStamp, FailureRecord(req, StatusOf(e), MessageOf(e), elapsed))),
        LogLine(Log, "Request Details:"),
        LogLine(Log, "{\"headers\":" + req.headers + ",\"body\":" + req.body
                     + ",\"query\":" + req.query + ",\"params\":" + req.params + "}")]
  {
    DetailLineIsRecord(clock.detailStamp, req, StatusOf(e), MessageOf(e), clock.end - clock.start);
    DetailsDumpVerbatim(req);
  }

  lemma AppendAssociative<T>(a: seq<T>, b: seq<T>, c: seq<T>)
    ensures (a + b) + c == a + (b + c)
  {
  }

  class AllExceptionsFilter {
    const logger: Logger
    const config: map<string, string>

    constructor (logger: Logger, config: map<string, string>)
      ensures this.logger == logger && this.config == config
    {
      this.logger := logger;
      this.config := config;
    }

    /** Logs the body's message at error level (not called by `Catch`). */
    method LogError(errorResponse: ErrorResponse)
      modifies logger
      ensures logger.lines == old(logger.lines) + [LogLine(Error, errorResponse.message)]
    {
      logger.Error(errorResponse.message);
    }

    /** Walks the guards in order and logs the category of the first one that holds. */
    method LogCategory(exception: Thrown)
      modifies logger
      ensures logger.lines == old(logger.lines) + CategoryLog(Exported, exception)
    {
      var guards := Exported;
      var i := 0;
      while i < |guards|
        invariant i <= |guards|
        invariant forall j :: 0 <= j < i ==> !Holds(guards[j], exception)
        invariant logger.lines == old(logger.lines)
      {
        if Holds(guards[i], exception) {
          FirstMatchAt(guards, exception, i);
          logger.Error(CategoryLine(Name(guards[i])));
          break;
        }
        i := i + 1;
      }
    }

    /** Logs the summary, the detail line and the request dump, measuring the elapsed time once for both lines. */
    method LogFailure(request: Request, status: int, message: string, clock: Clock)
      modifies logger
      ensures logger.lines == old(logger.lines) + FailureLog(request, status, message, clock)
    {
      var elapsedTime := clock.end - clock.start;
      logger.Error(SummaryLine(clock.summaryStamp, request.verb, request.url, status, message, elapsedTime));
      logger.Error(DetailLine(clock.detailStamp, request, status, message, elapsedTime));
      logger.Log("Request Details:");
      logger.Log(DetailsDump(request));
    }

    /** Handles a thrown value that reached the request boundary. */
    method Catch(exception: Thrown, request: Request, response: Response, clock: Clock)
      modifies logger, response`statusCode, response`body
      ensures logger.lines == old(logger.lines) + CatchLog(exception, request, clock)
      ensures response.body == Some(ErrorBody(exception, request.url, config, clock.bodyStamp))
      ensures response.statusCode == response.body.value.statusCode
    {
      var status := StatusOf(exception);
      var message := MessageOf(exception);

      var errorResponse := ErrorResponse(status, clock.bodyStamp, request.url, message, None, None);
      if exception.HttpException? {
        errorResponse := errorResponse.(error := Some(exception.response));
      }
      if ConfigGet(config, "NODE_ENV") == Some("dev") && exception.IsError() && exception.stack != "" {
        errorResponse := errorResponse.(stackTrace := Some(exception.stack));
      }
      assert errorResponse == ErrorBody(exception, request.url, config, clock.bodyStamp);

      ghost var category := CategoryLog(Exported, exception);
      ghost var failure := FailureLog(request, status, message, clock);
      LogCategory(exception);
      LogFailure(request, status, message, clock);
      AppendAssociative(old(logger.lines), category, failure);

      response.Status(status);
      response.Json(errorResponse);
    }
  }
}
