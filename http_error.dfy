/**
 * The HTTP-exception type guards: each recognises an HTTP exception that
 * carries one specific status.
 */
module HttpError {

  const BAD_REQUEST := 400
  const UNAUTHORIZED := 401
  const FORBIDDEN := 403
  const NOT_FOUND := 404
  const CONFLICT := 409
  const PAYLOAD_TOO_LARGE := 413
  const UNSUPPORTED_MEDIA_TYPE := 415
  const INTERNAL_SERVER_ERROR := 500

  /**
   * A thrown value: an HTTP exception (with `getStatus()`, `message`,
   * `getResponse()` as JSON text, and `stack`), any other `Error`, or a value
   * that is not an `Error` at all. An absent stack is the empty string; both
   * are falsy.
   */
  datatype Thrown =
    | HttpException(status: int, message: string, response: string, stack: string)
    | PlainError(message: string, stack: string)
    | NonError(value: string)
  {
    /** `instanceof Error`: HTTP exceptions are errors too. */
    predicate IsError() {
      HttpException? || PlainError?
    }
  }

  predicate IsBadRequest(e: Thrown) {
    e.HttpException? && e.status == BAD_REQUEST
  }

  predicate IsNotFound(e: Thrown) {
    e.HttpException? && e.status == NOT_FOUND
  }

  predicate IsUnauthorized(e: Thrown) {
    e.HttpException? && e.status == UNAUTHORIZED
  }

  predicate IsForbidden(e: Thrown) {
    e.HttpException? && e.status == FORBIDDEN
  }

  predicate IsInternalServerError(e: Thrown) {
    e.HttpException? && e.status == INTERNAL_SERVER_ERROR
  }

  predicate IsConflict(e: Thrown) {
    e.HttpException? && e.status == CONFLICT
  }

  predicate IsUnsupportedMediaType(e: Thrown) {
    e.HttpException? && e.status == UNSUPPORTED_MEDIA_TYPE
  }

  predicate IsPayloadTooLarge(e: Thrown) {
    e.HttpException? && e.status == PAYLOAD_TOO_LARGE
  }

  /** The eight exported guards, one constructor each. */
  datatype Guard =
    | BadRequest | NotFound | Unauthorized | Forbidden
    | InternalServerError | Conflict | UnsupportedMediaType | PayloadTooLarge

  /** The guards in the order the module exports them. */
  const Exported: seq<Guard> :=
    [BadRequest, NotFound, Unauthorized, Forbidden,
     InternalServerError, Conflict, UnsupportedMediaType, PayloadTooLarge]

  /** Calls the guard function exported under `Name(g)`. */
  predicate Holds(g: Guard, e: Thrown) {
    match g
    case BadRequest => IsBadRequest(e)
    case NotFound => IsNotFound(e)
    case Unauthorized => IsUnauthorized(e)
    case Forbidden => IsForbidden(e)
    case InternalServerError => IsInternalServerError(e)
    case Conflict => IsConflict(e)
    case UnsupportedMediaType => IsUnsupportedMediaType(e)
    case PayloadTooLarge => IsPayloadTooLarge(e)
  }

  /** The exported function name of each guard; every one starts with "is". */
  function Name(g: Guard): (n: string)
    ensures |n| > 2 && n[..2] == "is"
  {
    match g
    case BadRequest => "isBadRequest"
    case NotFound => "isNotFound"
    case Unauthorized => "isUnauthorized"
    case Forbidden => "isForbidden"
    case InternalServerError => "isInternalServerError"
    case Conflict => "isConflict"
    case UnsupportedMediaType => "isUnsupportedMediaType"
    case PayloadTooLarge => "isPayloadTooLarge"
  }

  /** The status each guard stands for, as the HTTP standard numbers them. */
  function Code(g: Guard): int {
    match g
    case BadRequest => 400
    case NotFound => 404
    case Unauthorized => 401
    case Forbidden => 403
    case InternalServerError => 500
    case Conflict => 409
    case UnsupportedMediaType => 415
    case PayloadTooLarge => 413
  }

  const RecognisedStatuses: set<int> := {400, 401, 403, 404, 409, 413, 415, 500}

  /** Each guard holds exactly for HTTP exceptions that carry its status. */
  lemma GuardMeaning(g: Guard, e: Thrown)
    ensures Holds(g, e) <==> e.HttpException? && e.status == Code(g)
  {
  }

  /** A value that is not an HTTP exception passes no guard. */
  lemma NonHttpExceptionMatchesNoGuard(g: Guard, e: Thrown)
    requires !e.HttpException?
    ensures !Holds(g, e)
  {
  }

  /** No two guards hold of the same value. */
  lemma GuardsExclusive(g1: Guard, g2: Guard, e: Thrown)
    requires g1 != g2
    ensures !(Holds(g1, e) && Holds(g2, e))
  {
    GuardMeaning(g1, e);
    GuardMeaning(g2, e);
  }

  /** Some guard holds exactly for the HTTP exceptions whose status is one of the eight. */
  lemma SomeGuardHolds(e: Thrown)
    ensures (exists g :: Holds(g, e)) <==> e.HttpException? && e.status in RecognisedStatuses
  {
    if e.HttpException? && e.status in RecognisedStatuses {
      var g :=
        if e.status == 400 then BadRequest
        else if e.status == 401 then Unauthorized
        else if e.status == 403 then Forbidden
        else if e.status == 404 then NotFound
        else if e.status == 409 then Conflict
        else if e.status == 413 then PayloadTooLarge
        else if e.status == 415 then UnsupportedMediaType
        else InternalServerError;
      assert Holds(g, e);
    }
  }

  /** The exported list names every guard once, under a distinct name. */
  lemma ExportedListsEachGuardOnce()
    ensures forall g :: g in Exported
    ensures forall i, j :: 0 <= i < j < |Exported| ==> Exported[i] != Exported[j]
    ensures forall g1, g2 :: Name(g1) == Name(g2) ==> g1 == g2
  {
    forall g ensures g in Exported {
      match g
      case BadRequest => assert Exported[0] == g;
      case NotFound => assert Exported[1] == g;
      case Unauthorized => assert Exported[2] == g;
      case Forbidden => assert Exported[3] == g;
      case InternalServerError => assert Exported[4] == g;
      case Conflict => assert Exported[5] == g;
      case UnsupportedMediaType => assert Exported[6] == g;
      case PayloadTooLarge => assert Exported[7] == g;
    }
  }
}
