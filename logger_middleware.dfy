/**
 * The request-logging middleware: when a response finishes it writes one line
 * describing the request, at error level for 4xx and 5xx statuses and at log
 * level otherwise.
 */
module Middleware {
  import opened Options
  import opened Text
  import opened Logging
  import opened Http
  import ExceptionFilter

  /** `res.statusMessage || ''`: a missing status message counts as empty. */
  function ErrorMessageOf(statusMessage: Option<string>): (m: string)
    ensures statusMessage.None? ==> m == ""
    ensures statusMessage.Some? ==> m == statusMessage.value
  {
    statusMessage.GetOr("")
  }

  /** The level of the completion line: error for every status from 400 up, log below. */
  function FinishLevel(statusCode: int): (l: Level)
    ensures l == Error <==> statusCode >= 400
  {
    if statusCode >= 500 then Error
    else if statusCode >= 400 then Error
    else Log
  }

  /** The completion line written when the response finishes. */
  function RequestLogString(stamp: string, req: Request, statusCode: int, errorMessage: string, elapsed: int): string {
    "[" + stamp + "] Method: " + req.verb + " | URL: " + req.originalUrl + " | IP: " + req.ip
    + " | Params: " + req.params + " | Query: " + req.query + " | Body: " + req.body
    + " | Headers: " + req.headers + " | Status Code: " + IntToString(statusCode)
    + (if errorMessage != "" then " | Error: " + errorMessage else "")
    + " | Elapsed Time: " + IntToString(elapsed) + "ms"
  }

  /** The record a completion line shows: the original URL, and the status message as error text. */
  function CompletionRecord(req: Request, statusCode: int, errorMessage: string, elapsed: int): RequestRecord {
    RequestRecord(req.verb, req.originalUrl, req.ip, req.params, req.query, req.body, req.headers,
                  statusCode, errorMessage, elapsed)
  }

  /**
   * The completion line is the shared request-record rendering: fields in the
   * fixed order, the Error field exactly when the status message is non-empty.
   */
  lemma RequestLogStringIsRecord(stamp: string, req: Request, statusCode: int, errorMessage: string, elapsed: int)
    ensures RequestLogString(stamp, req, statusCode, errorMessage, elapsed)
         == RenderRecord(stamp, CompletionRecord(req, statusCode, errorMessage, elapsed))
    ensures "Error" in Names(RecordFields(CompletionRecord(req, statusCode, errorMessage, elapsed)))
        <==> errorMessage != ""
  {
    RenderRecordText(stamp, CompletionRecord(req, statusCode, errorMessage, elapsed));
    RecordNames(CompletionRecord(req, statusCode, errorMessage, elapsed));
  }

  /**
   * The exception filter's detail template and the completion template agree:
   * for a request whose URL was not rewritten, given the same timestamp,
   * status, error text and elapsed time, they produce the same text.
   */
  lemma DetailLineMatchesRequestLog(stamp: string, req: Request, status: int, message: string, elapsed: int)
    requires req.originalUrl == req.url
    ensures ExceptionFilter.DetailLine(stamp, req, status, message, elapsed)
         == RequestLogString(stamp, req, status, message, elapsed)
  {
    ExceptionFilter.DetailLineIsRecord(stamp, req, status, message, elapsed);
    RequestLogStringIsRecord(stamp, req, status, message, elapsed);
  }

  /** Stand-in for the `next` callback: records, at each call, how many handlers the response had. */
  class Next {
    var calls: seq<nat>

    constructor ()
      ensures calls == []
    {
      calls := [];
    }

    method Call(res: Response)
      modifies this
      ensures calls == old(calls) + [|res.handlers|]
    {
      calls := calls + [|res.handlers|];
    }
  }

  class LoggerMiddleware {
    const loggerService: Logger

    constructor (loggerService: Logger)
      ensures this.loggerService == loggerService
    {
      this.loggerService := loggerService;
    }

    /**
     * Captures the start time, registers the finish and close handlers, and
     * then passes control on, exactly once. The finish handler keeps only the
     * start time; the request it describes is read when it fires.
     */
    method Use(req: Request, res: Response, next: Next, now: int)
      modifies res`handlers, next
      ensures res.handlers == old(res.handlers) + [FinishHandler(now), CloseHandler]
      ensures next.calls == old(next.calls) + [|old(res.handlers)| + 2]
    {
      var startTime := now;
      res.On(FinishHandler(startTime));
      res.On(CloseHandler);
      next.Call(res);
    }

    /**
     * The finish handler: exactly one line, at the level the status calls for,
     * describing the request as it stands when the response finishes.
     */
    method OnFinish(startTime: int, req: Request, res: Response, now: int, stamp: string)
      modifies loggerService
      ensures loggerService.lines == old(loggerService.lines) + [LogLine(
        FinishLevel(res.statusCode),
        RequestLogString(stamp, req, res.statusCode, ErrorMessageOf(res.statusMessage), now - startTime))]
    {
      var elapsedTime := now - startTime;
      var statusCode := res.statusCode;
      var errorMessage := ErrorMessageOf(res.statusMessage);
      var requestLogString := RequestLogString(stamp, req, statusCode, errorMessage, elapsedTime);
      if statusCode >= 500 {
        loggerService.Error(requestLogString);
      } else if statusCode >= 400 {
        loggerService.Error(requestLogString);
      } else {
        loggerService.Log(requestLogString);
      }
    }

    /** The close handler: re-assigns the error message to itself, so `locals` stays as it was. */
    method OnClose(res: Response)
      modifies res`locals
      ensures res.locals == old(res.locals)
    {
      if "errorMessage" in res.locals && res.locals["errorMessage"] != "" {
        res.locals := res.locals["errorMessage" := res.locals["errorMessage"]];
      }
    }

    /**
     * The response emits its event to one registered handler; `req` is the
     * request object as it stands at that moment.
     */
    method Dispatch(h: Handler, req: Request, res: Response, now: int, stamp: string)
      modifies loggerService, res`locals
      ensures res.locals == old(res.locals)
      ensures h.FinishHandler? ==> loggerService.lines == old(loggerService.lines) + [LogLine(
        FinishLevel(res.statusCode),
        RequestLogString(stamp, req, res.statusCode, ErrorMessageOf(res.statusMessage), now - h.startTime))]
      ensures h.CloseHandler? ==> loggerService.lines == old(loggerService.lines)
    {
      match h
      case FinishHandler(startTime) =>
        OnFinish(startTime, req, res, now, stamp);
      case CloseHandler =>
        OnClose(res);
    }
  }
}
