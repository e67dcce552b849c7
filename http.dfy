/**
 * The parts of the web framework's request and response objects that the
 * exception filter and the logging middleware touch.
 */
module Http {
  import opened Options

  /**
   * An incoming request. `verb` is the HTTP method; `params`, `query`,
   * `body` and `headers` are given as the JSON texts `JSON.stringify`
   * produces for them.
   */
  datatype Request = Request(
    verb: string, url: string, originalUrl: string, ip: string,
    params: string, query: string, body: string, headers: string)

  /** The error body the exception filter sends (the `ErrorResponse` interface). */
  datatype ErrorResponse = ErrorResponse(
    statusCode: int, timestamp: string, path: string, message: string,
    error: Option<string>, stackTrace: Option<string>)

  /**
   * A callback registered on the response, with the values it captured by
   * value. The request is not among them: a handler reads the request object
   * when it runs.
   */
  datatype Handler =
    | FinishHandler(startTime: int)
    | CloseHandler

  class Response {
    var statusCode: int
    var statusMessage: Option<string>
    var locals: map<string, string>
    var handlers: seq<Handler>
    var body: Option<ErrorResponse>

    constructor ()
      ensures statusCode == 200 && statusMessage == None && locals == map[]
      ensures handlers == [] && body == None
    {
      statusCode := 200;
      statusMessage := None;
      locals := map[];
      handlers := [];
      body := None;
    }

    /** `res.status(code)` */
    method Status(code: int)
      modifies this`statusCode
      ensures statusCode == code
    {
      statusCode := code;
    }

    /** `res.json(b)` */
    method Json(b: ErrorResponse)
      modifies this`body
      ensures body == Some(b)
    {
      body := Some(b);
    }

    /** `res.on(event, h)` */
    method On(h: Handler)
      modifies this`handlers
      ensures handlers == old(handlers) + [h]
    {
      handlers := handlers + [h];
    }
  }
}
