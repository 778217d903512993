/**
 * HTTP middleware of baseapp/middleware.go: a response writer that remembers
 * the status and body it forwarded, the request/response logging around a
 * handler, and the translation of handler errors and panics into one JSON
 * error response plus an optional notification.
 */
module Middleware {
  import opened Wrappers
  import opened Bytes
  import opened Http
  import opened Utilities

  // ---------------------------------------------------------------------------
  // Response recording
  // ---------------------------------------------------------------------------

  /**
   * `loggingResponseWriter`: forwards to the wrapped writer and keeps the
   * last status code and the last body chunk written through it.
   */
  class LoggingResponseWriter {
    var status: int
    var body: seq<Byte>
    const inner: ResponseWriter

    /** A fresh wrapper: status 0 and an empty body until the handler writes. */
    constructor (inner: ResponseWriter)
      ensures this.inner == inner && status == 0 && body == []
    {
      this.inner := inner;
      status := 0;
      body := [];
    }

    /**
     * `Header().Add(key, value)` through the wrapper: `Header` is promoted from
     * the wrapped writer, so the header goes straight to it and nothing is recorded.
     */
    method AddHeader(key: string, value: string)
      modifies inner
      ensures inner.events == old(inner.events) + [HeaderAdded(key, value)]
    {
      inner.AddHeader(key, value);
    }

    /** Records code, then forwards it. */
    method WriteHeader(code: int)
      modifies this, inner
      ensures status == code && body == old(body)
      ensures inner.events == old(inner.events) + [StatusWritten(code)]
    {
      status := code;
      inner.WriteHeader(code);
    }

    /** Replaces the recorded body by chunk (it does not append), then forwards it. */
    method Write(chunk: seq<Byte>) returns (n: int)
      modifies this, inner
      ensures body == chunk && status == old(status)
      ensures inner.events == old(inner.events) + [BodyWritten(chunk)]
      ensures n == |chunk|
    {
      body := chunk;
      n := inner.Write(chunk);
    }
  }

  /** A call a handler makes on the writer it is given. */
  datatype WriterCall =
    | CallAddHeader(key: string, value: string)
    | CallWriteHeader(code: int)
    | CallWrite(chunk: seq<Byte>)

  /** What the wrapped writer receives for one call. */
  function Forwarded(call: WriterCall): WriterEvent
  {
    match call
    case CallAddHeader(key, value) => HeaderAdded(key, value)
    case CallWriteHeader(code) => StatusWritten(code)
    case CallWrite(chunk) => BodyWritten(chunk)
  }

  function ForwardedAll(calls: seq<WriterCall>): seq<WriterEvent>
    decreases |calls|
  {
    if calls == [] then [] else ForwardedAll(calls[..|calls| - 1]) + [Forwarded(calls[|calls| - 1])]
  }

  /** The status the wrapper holds after calls: the last code written, 0 if none. */
  function LastStatus(calls: seq<WriterCall>): int
    decreases |calls|
  {
    if calls == [] then 0
    else if calls[|calls| - 1].CallWriteHeader? then calls[|calls| - 1].code
    else LastStatus(calls[..|calls| - 1])
  }

  /** The body the wrapper holds after calls: the last chunk written, empty if none. */
  function LastBody(calls: seq<WriterCall>): seq<Byte>
    decreases |calls|
  {
    if calls == [] then []
    else if calls[|calls| - 1].CallWrite? then calls[|calls| - 1].chunk
    else LastBody(calls[..|calls| - 1])
  }

  /** A handler that never sets a status leaves the recorded status at 0. */
  lemma {:induction false} NoWriteHeaderKeepsZero(calls: seq<WriterCall>)
    requires forall i :: 0 <= i < |calls| ==> !calls[i].CallWriteHeader?
    ensures LastStatus(calls) == 0
    decreases |calls|
  {
    if calls != [] {
      NoWriteHeaderKeepsZero(calls[..|calls| - 1]);
    }
  }

  /** A handler that never writes a body leaves the recorded body empty. */
  lemma {:induction false} NoWriteKeepsBodyEmpty(calls: seq<WriterCall>)
    requires forall i :: 0 <= i < |calls| ==> !calls[i].CallWrite?
    ensures LastBody(calls) == []
    decreases |calls|
  {
    if calls != [] {
      NoWriteKeepsBodyEmpty(calls[..|calls| - 1]);
    }
  }

  /** The recorded body is the last chunk written: later header and status calls do not disturb it. */
  lemma {:induction false} LastWriteWins(before: seq<WriterCall>, chunk: seq<Byte>, after: seq<WriterCall>)
    requires forall i :: 0 <= i < |after| ==> !after[i].CallWrite?
    ensures LastBody(before + [CallWrite(chunk)] + after) == chunk
    decreases |after|
  {
    var calls := before + [CallWrite(chunk)] + after;
    if after == [] {
      assert calls[|calls| - 1] == CallWrite(chunk);
    } else {
      var init := after[..|after| - 1];
      LastWriteWins(before, chunk, init);
      assert calls[..|calls| - 1] == before + [CallWrite(chunk)] + init;
    }
  }

  // ---------------------------------------------------------------------------
  // Request/response logging
  // ---------------------------------------------------------------------------

  datatype Level = Debug | Info | Error

  /** The two response lines: the status, then the body. */
  datatype LogRecord = ResponseLine(level: Level, statusCode: int) | ResponseBodyLine(level: Level, body: seq<Byte>)

  const StatusInternalServerError := 500

  /**
   * The response lines logged after the handler: Info then Debug below 500,
   * Error for both from 500 up.
   */
  function ResponseLog(status: int, body: seq<Byte>): (records: seq<LogRecord>)
    ensures |records| == 2
    ensures records[0].ResponseLine? && records[0].statusCode == status
    ensures records[1].ResponseBodyLine? && records[1].body == body
    ensures status < StatusInternalServerError ==> records[0].level == Info && records[1].level == Debug
    ensures status >= StatusInternalServerError ==> records[0].level == Error && records[1].level == Error
  {
    if status < StatusInternalServerError then
      [ResponseLine(Info, status), ResponseBodyLine(Debug, body)]
    else
      [ResponseLine(Error, status), ResponseBodyLine(Error, body)]
  }

  /** A handler that never calls WriteHeader is logged at Info, as status 0. */
  lemma UnsetStatusLogsAsInfo(calls: seq<WriterCall>)
    requires forall i :: 0 <= i < |calls| ==> !calls[i].CallWriteHeader?
    ensures ResponseLog(LastStatus(calls), LastBody(calls))[0] == ResponseLine(Info, 0)
  {
  }

  /** Runs the handler's calls against the wrapper. */
  method ServeThrough(lw: LoggingResponseWriter, calls: seq<WriterCall>)
    modifies lw, lw.inner
    ensures lw.status == (if exists i :: 0 <= i < |calls| && calls[i].CallWriteHeader? then LastStatus(calls) else old(lw.status))
    ensures lw.body == (if exists i :: 0 <= i < |calls| && calls[i].CallWrite? then LastBody(calls) else old(lw.body))
    ensures lw.inner.events == old(lw.inner.events) + ForwardedAll(calls)
  {
    for i := 0 to |calls|
      invariant lw.status == (if exists j :: 0 <= j < i && calls[j].CallWriteHeader? then LastStatus(calls[..i]) else old(lw.status))
      invariant lw.body == (if exists j :: 0 <= j < i && calls[j].CallWrite? then LastBody(calls[..i]) else old(lw.body))
      invariant lw.inner.events == old(lw.inner.events) + ForwardedAll(calls[..i])
    {
      assert calls[..i + 1][..i] == calls[..i];
      match calls[i] {
        case CallAddHeader(key, value) =>
          lw.AddHeader(key, value);
        case CallWriteHeader(code) =>
          lw.WriteHeader(code);
        case CallWrite(chunk) =>
          var _ := lw.Write(chunk);
      }
    }
    assert calls[..|calls|] == calls;
  }

  /**
   * `LogRequestResponseMiddleware` around a handler that makes `calls`:
   * the request is logged with its authentication headers redacted, the
   * handler writes through a fresh wrapper, and the response is logged
   * from what the wrapper recorded.
   */
  method LogRequestResponse(h: Header, authKeys: seq<string>, w: ResponseWriter, calls: seq<WriterCall>)
    returns (requestLog: HeaderMap, responseLog: seq<LogRecord>)
    modifies h, w
    ensures requestLog == RedactPass(old(h.entries), authKeys).header
    ensures h.entries == Restored(requestLog, RedactPass(old(h.entries), authKeys).popList)
    ensures NoDuplicates(authKeys) ==> h.entries == old(h.entries)
    ensures w.events == old(w.events) + ForwardedAll(calls)
    ensures responseLog == ResponseLog(LastStatus(calls), LastBody(calls))
  {
    requestLog := PrintRequest(h, authKeys);
    var lw := new LoggingResponseWriter(w);
    ServeThrough(lw, calls);
    if !(exists i :: 0 <= i < |calls| && calls[i].CallWriteHeader?) {
      NoWriteHeaderKeepsZero(calls);
    }
    if !(exists i :: 0 <= i < |calls| && calls[i].CallWrite?) {
      NoWriteKeepsBodyEmpty(calls);
    }
    responseLog := ResponseLog(lw.status, lw.body);
  }

  // ---------------------------------------------------------------------------
  // Errors and their responses
  // ---------------------------------------------------------------------------

  type ErrorData = map<string, string>

  /** `errors.CustomError`: an application error with a code, optional data and a notify flag. */
  datatype CustomError = CustomError(
    errorCode: string,
    errorMessage: string,
    cause: Option<Error>,
    errorData: Option<ErrorData>,
    notify: bool)

  /** `errors.HTTPError`: a custom error carrying the HTTP status to answer with. */
  datatype HTTPError = HTTPError(custom: CustomError, statusCode: int)

  /** A Go `error` value, as a chain that `errors.As` walks through wrappers. */
  datatype Error =
    | HttpErr(http: HTTPError)
    | CustomErr(custom: CustomError)
    | Wrapped(message: string, inner: Error)
    | Plain(message: string)

  /** `errors.As(err, &httpErr)`: the first HTTPError in the chain. */
  function FindHTTPError(err: Error): (r: Option<HTTPError>)
    ensures err.HttpErr? ==> r == Some(err.http)
    ensures err.Wrapped? ==> r == FindHTTPError(err.inner)
    ensures err.Plain? || err.CustomErr? ==> r == None
  {
    match err
    case HttpErr(h) => Some(h)
    case Wrapped(_, inner) => FindHTTPError(inner)
    case _ => None
  }

  /** `errors.As(err, &customError)`: the first CustomError in the chain. */
  function FindCustomError(err: Error): (r: Option<CustomError>)
    ensures err.CustomErr? ==> r == Some(err.custom)
    ensures err.Wrapped? ==> r == FindCustomError(err.inner)
    ensures err.Plain? || err.HttpErr? ==> r == None
  {
    match err
    case CustomErr(c) => Some(c)
    case Wrapped(_, inner) => FindCustomError(inner)
    case _ => None
  }

  const UnknownErrorData: ErrorData := map["error" := "Internal error occurred, if persist contact technical team"]

  /** The wrapper built for an error of no known kind; it is created with notify set. */
  function UnknownError(err: Error): CustomError
  {
    CustomError("UNKNOWN", "Unknown error", Some(err), Some(UnknownErrorData), true)
  }

  /** The locals of `SendErrorResponse` once the kind of error is settled. */
  datatype ErrorDecision = ErrorDecision(
    statusCode: int,
    notify: bool,
    errorCode: string,
    errorData: Option<ErrorData>,
    body: seq<Byte>,
    reported: Error)

  /**
   * The decision table of `SendErrorResponse`; `render` stands for
   * `GetErrorResponse`. An HTTPError anywhere in the chain supplies
   * everything; otherwise a CustomError gives 500, its notify flag and data
   * but no error code; any other error gives 500 with the UNKNOWN body and
   * is never notified.
   */
  function DecideErrorResponse(err: Error, render: CustomError -> seq<Byte>): (d: ErrorDecision)
    ensures FindHTTPError(err).Some? ==>
      var h := FindHTTPError(err).value;
      d == ErrorDecision(h.statusCode, h.custom.notify, h.custom.errorCode, h.custom.errorData, render(h.custom), err)
    ensures FindHTTPError(err).None? && FindCustomError(err).Some? ==>
      var c := FindCustomError(err).value;
      d == ErrorDecision(StatusInternalServerError, c.notify, "", c.errorData, render(c), err)
    ensures FindHTTPError(err).None? && FindCustomError(err).None? ==>
      d == ErrorDecision(StatusInternalServerError, false, "", None, render(UnknownError(err)), CustomErr(UnknownError(err)))
  {
    match FindHTTPError(err)
    case Some(h) =>
      ErrorDecision(h.statusCode, h.custom.notify, h.custom.errorCode, h.custom.errorData, render(h.custom), err)
    case None =>
      match FindCustomError(err)
      case Some(c) => ErrorDecision(StatusInternalServerError, c.notify, "", c.errorData, render(c), err)
      case None =>
        var unknown := UnknownError(err);
        ErrorDecision(StatusInternalServerError, false, "", None, render(unknown), CustomErr(unknown))
  }

  /** Only an HTTPError can choose a status other than 500 or set an error code. */
  lemma {:induction false} OnlyHTTPErrorsChooseStatus(err: Error, render: CustomError -> seq<Byte>)
    ensures var d := DecideErrorResponse(err, render);
      d.statusCode != StatusInternalServerError || d.errorCode != "" ==> FindHTTPError(err).Some?
  {
  }

  /** An error of no known kind is never notified, although its wrapper is built with notify set. */
  lemma UnknownErrorsAreNotNotified(err: Error, render: CustomError -> seq<Byte>)
    requires FindHTTPError(err).None? && FindCustomError(err).None?
    ensures !DecideErrorResponse(err, render).notify && UnknownError(err).notify
  {
  }

  /** Wrapping an error with `fmt.Errorf("...: %w", err)` does not change its response. */
  lemma {:induction false} WrappingKeepsResponse(message: string, err: Error, render: CustomError -> seq<Byte>)
    requires FindHTTPError(err).Some? || FindCustomError(err).Some?
    ensures var d := DecideErrorResponse(Wrapped(message, err), render);
      var d' := DecideErrorResponse(err, render);
      d.statusCode == d'.statusCode && d.notify == d'.notify && d.body == d'.body && d.errorCode == d'.errorCode
  {
  }

  datatype NotifyKind = Send5XX | Send4XX

  /** One call of the error notifier. */
  datatype Notification = Notification(
    kind: NotifyKind,
    errorCode: string,
    err: Error,
    stackTrace: string,
    errorData: Option<ErrorData>)

  /**
   * The notification `SendErrorResponse` sends: one only when the decision
   * says notify and a notifier is configured; Send5XX exactly when the status
   * is 500 or above, Send4XX otherwise.
   */
  function NotificationFor(d: ErrorDecision, hasNotifier: bool, stackTrace: string): (n: Option<Notification>)
    ensures n.Some? <==> d.notify && hasNotifier
    ensures n.Some? ==> (n.value.kind == Send5XX <==> d.statusCode >= StatusInternalServerError)
    ensures n.Some? ==> n.value == Notification(n.value.kind, d.errorCode, d.reported, stackTrace, d.errorData)
  {
    if d.notify && hasNotifier then
      var kind := if d.statusCode >= StatusInternalServerError then Send5XX else Send4XX;
      Some(Notification(kind, d.errorCode, d.reported, stackTrace, d.errorData))
    else None
  }

  /** The configured error notifier; `sent` lists its calls in order. */
  class ErrorNotifier {
    var sent: seq<Notification>

    constructor ()
      ensures sent == []
    {
      sent := [];
    }

    method Send(n: Notification)
      modifies this
      ensures sent == old(sent) + [n]
    {
      sent := sent + [n];
    }
  }

  /** What a notifier's log gains from one error response. */
  function NotifierGain(d: ErrorDecision, notifier: ErrorNotifier?, stackTrace: string): seq<Notification>
  {
    match NotificationFor(d, notifier != null, stackTrace)
    case None => []
    case Some(n) => [n]
  }

  /**
   * `SendErrorResponse`: settle the kind of err, notify at most once, then
   * write exactly one JSON response.
   */
  method SendErrorResponse(
    w: ResponseWriter, notifier: ErrorNotifier?, stackTrace: string, err: Error, render: CustomError -> seq<Byte>)
    modifies w, notifier
    ensures var d := DecideErrorResponse(err, render);
      && w.events == old(w.events) + JsonResponse(d.statusCode, d.body)
      && (notifier != null ==> notifier.sent == old(notifier.sent) + NotifierGain(d, notifier, stackTrace))
  {
    var statusCode := StatusInternalServerError;
    var notify := false;
    var errorCode := "";
    var errorData: Option<ErrorData> := None;
    var body: seq<Byte>;
    var reported := err;
    var httpErr := FindHTTPError(err);
    if httpErr.Some? {
      var h := httpErr.value;
      statusCode, notify, body := h.statusCode, h.custom.notify, render(h.custom);
      errorCode, errorData := h.custom.errorCode, h.custom.errorData;
    } else {
      var customErr := FindCustomError(err);
      if customErr.Some? {
        var c := customErr.value;
        statusCode, notify, body := StatusInternalServerError, c.notify, render(c);
        errorData := c.errorData;
      } else {
        var unknown := UnknownError(err);
        statusCode, body := StatusInternalServerError, render(unknown);
        reported := CustomErr(unknown);
      }
    }
    if notify && notifier != null {
      var kind := if statusCode >= StatusInternalServerError then Send5XX else Send4XX;
      notifier.Send(Notification(kind, errorCode, reported, stackTrace, errorData));
    }
    // The body is already bytes, so no marshalling takes place.
    var raw: ResponseBody<()> := RawBytes(body);
    WriteJsonWithStatusCode(w, statusCode, raw, (_: ()) => None);
  }

  // ---------------------------------------------------------------------------
  // Handler errors and panics
  // ---------------------------------------------------------------------------

  /**
   * The closure `func(err error) { handlerError = err }` that a handler calls
   * through `SetHandlerError`; each call overwrites the previous one, and a
   * nil error clears it.
   */
  class ErrorRecorder {
    var handlerError: Option<Error>

    constructor ()
      ensures handlerError == None
    {
      handlerError := None;
    }

    method Record(err: Option<Error>)
      modifies this
      ensures handlerError == err
    {
      handlerError := err;
    }
  }

  /** The error left recorded after a sequence of recordings: the last one, nil if none. */
  function LastRecorded(recorded: seq<Option<Error>>): Option<Error>
  {
    if recorded == [] then None else recorded[|recorded| - 1]
  }

  /** A panic value: an error, or any other value given as its JSON text. */
  datatype PanicValue = ErrorValue(err: Error) | OtherValue(json: string)

  /** How the handler ended: returned after recording errors, or panicked. */
  datatype HandlerRun = Returned(recorded: seq<Option<Error>>) | Panicked(value: PanicValue)

  /** The error a recovered panic is reported as. */
  function RecoveredError(v: PanicValue): (e: Error)
    ensures v.ErrorValue? ==> e == v.err
    ensures v.OtherValue? ==> e == Plain("non error panic: " + v.json)
  {
    match v
    case ErrorValue(err) => err
    case OtherValue(json) => Plain("non error panic: " + json)
  }

  /**
   * The error and stack trace `HandleExceptionMiddleware` reports, if any: a
   * recovered panic with the stack, or the last recorded handler error with
   * an empty trace.
   */
  function ErrorToReport(run: HandlerRun, stack: string): (r: Option<(Error, string)>)
    ensures run.Panicked? ==> r == Some((RecoveredError(run.value), stack))
    ensures run.Returned? ==> (r.Some? <==> LastRecorded(run.recorded).Some?)
    ensures run.Returned? && r.Some? ==> r.value == (LastRecorded(run.recorded).value, "")
  {
    match run
    case Panicked(v) => Some((RecoveredError(v), stack))
    case Returned(recorded) =>
      match LastRecorded(recorded)
      case None => None
      case Some(e) => Some((e, ""))
  }

  /** A later recording overrides an earlier one; a nil recording last means no error response. */
  lemma LastRecordingWins(recorded: seq<Option<Error>>, last: Option<Error>, stack: string)
    ensures ErrorToReport(Returned(recorded + [last]), stack) ==
      match last
      case None => None
      case Some(e) => Some((e, ""))
  {
  }

  /**
   * `HandleExceptionMiddleware` after the handler has run: replay the
   * handler's recordings into the closure, then send one error response for
   * a panic or a recorded error, and nothing otherwise.
   */
  method HandleException(
    w: ResponseWriter, notifier: ErrorNotifier?, run: HandlerRun, stack: string, render: CustomError -> seq<Byte>)
    modifies w, notifier
    ensures ErrorToReport(run, stack).None? ==>
      w.events == old(w.events) && (notifier != null ==> notifier.sent == old(notifier.sent))
    ensures ErrorToReport(run, stack).Some? ==>
      var (err, trace) := ErrorToReport(run, stack).value;
      var d := DecideErrorResponse(err, render);
      && w.events == old(w.events) + JsonResponse(d.statusCode, d.body)
      && (notifier != null ==> notifier.sent == old(notifier.sent) + NotifierGain(d, notifier, trace))
  {
    match run {
      case Panicked(v) =>
        var err := RecoveredError(v);
        SendErrorResponse(w, notifier, stack, err, render);
      case Returned(recorded) =>
        var recorder := new ErrorRecorder();
        for i := 0 to |recorded|
          modifies recorder
          invariant recorder.handlerError == LastRecorded(recorded[..i])
        {
          recorder.Record(recorded[i]);
        }
        assert recorded[..|recorded|] == recorded;
        if recorder.handlerError.Some? {
          SendErrorResponse(w, notifier, "", recorder.handlerError.value, render);
        }
    }
  }
}
