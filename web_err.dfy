/**
  HTTP error responses (pkg/web/err.go).

  `ErrorResponder` turns an error into exactly one JSON response. When the
  error, or an error it wraps, is a fault of the `fault` library, the fault's
  code picks the status and the fault's message and context are sent; any
  other error is logged and answered with a fixed 500 body that reveals
  nothing about it.
*/
module Web {
  import opened Wrappers

  // ---------------------------------------------------------------------
  // Faults and errors
  // ---------------------------------------------------------------------

  /** The codes of the `fault` library; `OtherCode` is any code the status switch does not name. */
  datatype FaultCode =
    | Conflict
    | Invalid
    | DomainViolation
    | NotFound
    | Unauthorized
    | Forbidden
    | OtherCode(name: string)

  /** `*fault.Error`: a code, a client-facing message and key/value context. */
  datatype Fault = Fault(code: FaultCode, message: string, context: map<string, string>)

  /**
    A Go `error` value: a fault, which may wrap the error that caused it; an
    error wrapping another one (as `fmt.Errorf("...: %w", err)` does); or an
    error that wraps nothing.
  */
  datatype Error =
    | FaultError(fault: Fault, wraps: Option<Error>)
    | Wrapped(text: string, cause: Error)
    | Plain(text: string)

  /** The chain `errors.As` inspects: the error itself, then what each link wraps. */
  function Chain(e: Error): (c: seq<Error>)
    ensures |c| >= 1 && c[0] == e
  {
    match e
    case Wrapped(_, cause) => [e] + Chain(cause)
    case FaultError(_, Some(cause)) => [e] + Chain(cause)
    case _ => [e]
  }

  predicate NoFaultBefore(c: seq<Error>, n: nat)
    requires n <= |c|
  {
    forall j | 0 <= j < n :: !c[j].FaultError?
  }

  /**
    `errors.As(err, &f)` for `f *fault.Error`: the first fault along the chain,
    or none when no link of the chain is a fault.
  */
  function AsFault(e: Error): (r: Option<Fault>)
    ensures r.None? <==> NoFaultBefore(Chain(e), |Chain(e)|)
    ensures r.Some? ==> exists i | 0 <= i < |Chain(e)| ::
      Chain(e)[i].FaultError? && Chain(e)[i].fault == r.value && NoFaultBefore(Chain(e), i)
  {
    match e
    case FaultError(f, _) => Some(f)
    case Plain(_) => None
    case Wrapped(_, cause) =>
      var r := AsFault(cause);
      if r.Some? then
        var i :| 0 <= i < |Chain(cause)| && Chain(cause)[i].FaultError? && Chain(cause)[i].fault == r.value && NoFaultBefore(Chain(cause), i);
        assert Chain(e)[i + 1] == Chain(cause)[i];
        assert NoFaultBefore(Chain(e), i + 1) by {
          forall j | 0 <= j < i + 1 ensures !Chain(e)[j].FaultError? {
            if j > 0 {
              assert Chain(e)[j] == Chain(cause)[j - 1];
            }
          }
        }
        r
      else
        assert NoFaultBefore(Chain(e), |Chain(e)|) by {
          forall j | 0 <= j < |Chain(e)| ensures !Chain(e)[j].FaultError? {
            if j > 0 {
              assert Chain(e)[j] == Chain(cause)[j - 1];
            }
          }
        }
        r
  }

  // ---------------------------------------------------------------------
  // Status codes
  // ---------------------------------------------------------------------

  const StatusBadRequest := 400
  const StatusUnauthorized := 401
  const StatusForbidden := 403
  const StatusNotFound := 404
  const StatusConflict := 409
  const StatusInternalServerError := 500

  /** Every status `ErrorResponder` can send. */
  const ResponseStatuses: set<int> :=
    {StatusBadRequest, StatusUnauthorized, StatusForbidden, StatusNotFound, StatusConflict, StatusInternalServerError}

  /** mapFaultCodeToHTTPStatus: the status each fault code is answered with. */
  function StatusOf(code: FaultCode): (s: int)
    ensures s in ResponseStatuses
    ensures s == StatusConflict <==> code == Conflict
    ensures s == StatusBadRequest <==> code == Invalid || code == DomainViolation
    ensures s == StatusNotFound <==> code == NotFound
    ensures s == StatusUnauthorized <==> code == Unauthorized
    ensures s == StatusForbidden <==> code == Forbidden
    ensures s == StatusInternalServerError <==> code.OtherCode?
  {
    match code
    case Conflict => StatusConflict
    case Invalid | DomainViolation => StatusBadRequest
    case NotFound => StatusNotFound
    case Unauthorized => StatusUnauthorized
    case Forbidden => StatusForbidden
    case OtherCode(_) => StatusInternalServerError
  }

  /** Every code the switch names is a client error; the rest are server errors. */
  lemma NamedCodesAreClientErrors(code: FaultCode)
    ensures 400 <= StatusOf(code) < 500 <==> !code.OtherCode?
  {
  }

  // ---------------------------------------------------------------------
  // Responding
  // ---------------------------------------------------------------------

  /**
    The JSON body. `details` is never set by `ErrorResponder`; an empty
    `context` is left out of the encoded body, as a nil map is.
  */
  datatype ErrorResponse = ErrorResponse(error: string, details: Option<string>, context: map<string, string>)

  datatype Response = Response(status: int, body: ErrorResponse)

  /** A record logged at error level, with the error under the "error" attribute. */
  datatype LogEntry = LogEntry(message: string, err: Error)

  /** What one call does: the response it writes, and what it logs on the way. */
  datatype Outcome = Outcome(response: Response, logged: seq<LogEntry>)

  const InternalErrorMessage := "an unexpected internal error occurred"
  const UnhandledLogMessage := "unhandled internal error"

  /** The single response sent for any error that holds no fault. */
  const InternalErrorResponse := Response(StatusInternalServerError, ErrorResponse(InternalErrorMessage, None, map[]))

  function ErrorResponder(err: Error): (o: Outcome)
    ensures o.response.status in ResponseStatuses
    ensures o.response.body.details.None?
    ensures AsFault(err).Some? ==>
      var f := AsFault(err).value;
      && o.response.status == StatusOf(f.code)
      && o.response.body.error == f.message
      && o.response.body.context == f.context
      && o.logged == []
    ensures AsFault(err).None? ==>
      o.response == InternalErrorResponse && o.logged == [LogEntry(UnhandledLogMessage, err)]
  {
    match AsFault(err)
    case Some(f) =>
      Outcome(Response(StatusOf(f.code), ErrorResponse(f.message, None, f.context)), [])
    case None =>
      Outcome(InternalErrorResponse, [LogEntry(UnhandledLogMessage, err)])
  }

  // ---------------------------------------------------------------------
  // Properties
  // ---------------------------------------------------------------------

  /** `err` wrapped in the given messages, innermost last. */
  function WrapAll(texts: seq<string>, err: Error): (e: Error)
    ensures |Chain(e)| == |texts| + |Chain(err)|
  {
    if texts == [] then err else Wrapped(texts[0], WrapAll(texts[1..], err))
  }

  /** However deeply an error is wrapped, the client gets the same response. */
  lemma {:induction false} WrappingKeepsResponse(texts: seq<string>, err: Error)
    ensures AsFault(WrapAll(texts, err)) == AsFault(err)
    ensures ErrorResponder(WrapAll(texts, err)).response == ErrorResponder(err).response
  {
    if texts != [] {
      WrappingKeepsResponse(texts[1..], err);
    }
  }

  /**
    A fault, however deeply wrapped and whatever it wraps in turn, answers
    with its own code, message and context, and nothing is logged: the
    outermost fault of the chain decides the response.
  */
  lemma FaultResponse(texts: seq<string>, f: Fault, wraps: Option<Error>)
    ensures var o := ErrorResponder(WrapAll(texts, FaultError(f, wraps)));
      o.response == Response(StatusOf(f.code), ErrorResponse(f.message, None, f.context)) && o.logged == []
  {
    WrappingKeepsResponse(texts, FaultError(f, wraps));
  }

  /**
    Errors without a fault are indistinguishable to the client: they all get
    the same 500 response, and each is logged once.
  */
  lemma InternalErrorsLookAlike(a: Error, b: Error)
    requires AsFault(a).None? && AsFault(b).None?
    ensures ErrorResponder(a).response == ErrorResponder(b).response == InternalErrorResponse
    ensures |ErrorResponder(a).logged| == 1 && ErrorResponder(a).logged[0].err == a
  {
  }

  /** A chain holds no fault exactly when it is answered with the internal-error response and logged. */
  lemma InternalResponseMeansNoFault(err: Error)
    ensures ErrorResponder(err).logged != [] <==> AsFault(err).None?
    ensures AsFault(err).None? <==> NoFaultBefore(Chain(err), |Chain(err)|)
  {
  }
}
