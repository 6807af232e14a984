/**
 * The HTTP executor (`makeHTTPRequestWithLogging`): builds the outgoing
 * request, classifies what the network did with it, logs exactly one record
 * and returns a result only on success.
 */
module Executor {
  import opened Wrappers
  import opened Strings
  import opened Audit

  /**
   * What happened to one request. It stands for `http.NewRequest`,
   * `client.Do` and `io.ReadAll` together, in the order the source calls them.
   */
  datatype Outcome =
    | ConstructFailed(msg: Bytes)
    | NetworkFailed(msg: Bytes)
    | ReadFailed(status: int, msg: Bytes)
    | Received(status: int, headers: map<Bytes, seq<Bytes>>, body: Bytes)

  /** The request handed to the HTTP client. An absent body is Go's nil body reader. */
  datatype WireRequest = WireRequest(
    httpMethod: Bytes,
    url: Bytes,
    body: Option<Bytes>,
    headers: map<Bytes, Bytes>,
    cookies: map<Bytes, Bytes>,
    timeoutNanos: int)

  /** What the caller gets back on success (Go's HTTPResult). */
  datatype HTTPResult = HTTPResult(
    httpMethod: Bytes,
    url: Bytes,
    statusCode: int,
    responseHeaders: map<Bytes, Bytes>,
    responseContent: Bytes,
    responseLength: int,
    requestHeaders: map<Bytes, Bytes>,
    requestCookies: map<Bytes, Bytes>,
    requestBody: Bytes,
    loggedTo: Bytes)

  const NanosPerSecond: int := 1_000_000_000

  /** Go's conversion of a float64 to an integer type: the fraction is dropped, toward zero. */
  function TruncateTowardZero(x: real): (n: int)
    ensures x >= 0.0 ==> n as real <= x < n as real + 1.0
    ensures x < 0.0 ==> n as real - 1.0 < x <= n as real
  {
    if x >= 0.0 then x.Floor else -((-x).Floor)
  }

  /** `http.Client` applies a deadline only for a positive timeout; zero or less means none. */
  predicate HasDeadline(timeoutNanos: int) {
    timeoutNanos > 0
  }

  /** The client timeout as the source computes it: whole seconds first, then scaled. */
  function ClientTimeoutAsWritten(timeout: real): (d: int)
    ensures d % NanosPerSecond == 0
    ensures HasDeadline(d) <==> timeout >= 1.0
  {
    TruncateTowardZero(timeout) * NanosPerSecond
  }

  /** The client timeout as intended: the given seconds in nanoseconds, truncated once. */
  function ClientTimeout(timeout: real): (d: int)
    ensures timeout >= 0.0 ==> d as real <= timeout * 1_000_000_000.0 < d as real + 1.0
    ensures HasDeadline(d) <==> timeout >= 0.000_000_001
  {
    TruncateTowardZero(timeout * NanosPerSecond as real)
  }

  /**
   * As written, every timeout below one second, such as 0.5, gives the client
   * no deadline at all; the intended conversion keeps it.
   */
  lemma SubSecondTimeoutDropped(timeout: real)
    requires 0.0 <= timeout < 1.0
    ensures ClientTimeoutAsWritten(timeout) == 0 && !HasDeadline(ClientTimeoutAsWritten(timeout))
    ensures timeout >= 0.000_000_001 ==> HasDeadline(ClientTimeout(timeout))
  {
  }

  /** Whole seconds that fit an int64 count of nanoseconds. */
  const MaxTimeoutSeconds: nat := 9_223_372_036

  /** On whole seconds, the default 30 among them, both conversions agree. */
  lemma ClientTimeoutWholeSeconds(seconds: nat)
    requires seconds <= MaxTimeoutSeconds
    ensures ClientTimeout(seconds as real) == ClientTimeoutAsWritten(seconds as real)
    ensures ClientTimeout(seconds as real) == seconds * NanosPerSecond
  {
  }

  /**
   * The request the executor builds: the method upper-cased, a body reader
   * only for a non-empty body, and the caller's headers and cookies.
   */
  function OutgoingRequest(
    httpMethod: Bytes, url: Bytes, headers: map<Bytes, Bytes>, cookies: map<Bytes, Bytes>,
    body: Bytes, timeout: real): (w: WireRequest)
    ensures w.httpMethod == ToUpper(httpMethod) && w.url == url
    ensures w.headers == headers && w.cookies == cookies
    ensures w.body.Some? <==> body != []
    ensures w.body.Some? ==> w.body.value == body
    ensures w.timeoutNanos == ClientTimeout(timeout)
  {
    WireRequest(ToUpper(httpMethod), url, if body != [] then Some(body) else None,
                headers, cookies, ClientTimeout(timeout))
  }

  /**
   * Response headers as the result and the log carry them: each key with at
   * least one value keeps its first value; keys without values are dropped.
   */
  function Flatten(h: map<Bytes, seq<Bytes>>): (r: map<Bytes, Bytes>)
    ensures forall k :: k in r <==> k in h && h[k] != []
    ensures forall k | k in r :: r[k] == h[k][0]
  {
    map k | k in h && h[k] != [] :: h[k][0]
  }

  /** The header-flattening loop of the executor. */
  method FlattenHeaders(h: map<Bytes, seq<Bytes>>) returns (r: map<Bytes, Bytes>)
    ensures r == Flatten(h)
  {
    r := map[];
    var todo := h.Keys;
    while todo != {}
      invariant todo <= h.Keys
      invariant forall k :: k in r <==> k in h && k !in todo && h[k] != []
      invariant forall k | k in r :: r[k] == h[k][0]
      decreases todo
    {
      var key :| key in todo;
      var values := h[key];
      if |values| > 0 {
        r := r[key := values[0]];
      }
      todo := todo - {key};
    }
  }

  /** The arguments the executor passes to the logger for an outcome. */
  datatype LogInputs = LogInputs(
    statusCode: int,
    responseHeaders: map<Bytes, Bytes>,
    responseContent: Bytes,
    responseLength: int,
    errorMsg: Bytes)

  function LogInputsOf(outcome: Outcome): (a: LogInputs)
    ensures a.errorMsg == [] <==> outcome.Received? || outcome.msg == []
    ensures !outcome.Received? ==>
      && a.errorMsg == outcome.msg
      && a.responseHeaders == map[] && a.responseContent == [] && a.responseLength == 0
      && a.statusCode == (if outcome.ReadFailed? then outcome.status else 0)
    ensures outcome.Received? ==>
      && a.statusCode == outcome.status
      && a.responseHeaders == Flatten(outcome.headers)
      && a.responseContent == outcome.body
      && a.responseLength == |outcome.body|
  {
    match outcome
    case ConstructFailed(msg) => LogInputs(0, map[], [], 0, msg)
    case NetworkFailed(msg) => LogInputs(0, map[], [], 0, msg)
    case ReadFailed(status, msg) => LogInputs(status, map[], [], 0, msg)
    case Received(status, headers, body) => LogInputs(status, Flatten(headers), body, |body|, [])
  }

  /** The one record an attempt with this outcome appends to the log. */
  function AttemptEntry(
    now: Bytes, httpMethod: Bytes, url: Bytes, headers: map<Bytes, Bytes>,
    cookies: map<Bytes, Bytes>, body: Bytes, outcome: Outcome): (e: LogData)
    ensures WellFormed(e) && e.timestamp == now
    ensures e.request == RequestEcho(ToUpper(httpMethod), url, headers, cookies, body, |body|)
    ensures e.error == LogInputsOf(outcome).errorMsg
    ensures e.response.contentPreview == Preview(LogInputsOf(outcome).responseContent)
  {
    var a := LogInputsOf(outcome);
    BuildRecord(now, ToUpper(httpMethod), url, headers, cookies, body,
                a.statusCode, a.responseHeaders, a.responseContent, a.responseLength, a.errorMsg)
  }

  /** What an attempt with this outcome returns: a result on success, the error otherwise. */
  function AttemptResult(
    httpMethod: Bytes, url: Bytes, headers: map<Bytes, Bytes>, cookies: map<Bytes, Bytes>,
    body: Bytes, outcome: Outcome, loggedTo: Bytes): (r: Result<HTTPResult, Bytes>)
    ensures r.Err? <==> !outcome.Received?
    ensures r.Err? ==> r.error == outcome.msg
    ensures r.Ok? ==>
      && r.value.httpMethod == ToUpper(httpMethod)
      && r.value.responseLength == |r.value.responseContent|
      && r.value.requestHeaders == headers && r.value.requestCookies == cookies
      && r.value.requestBody == body && r.value.loggedTo == loggedTo
  {
    match outcome
    case ConstructFailed(msg) => Err(msg)
    case NetworkFailed(msg) => Err(msg)
    case ReadFailed(_, msg) => Err(msg)
    case Received(status, h, content) =>
      Ok(HTTPResult(ToUpper(httpMethod), url, status, Flatten(h), content, |content|,
                    headers, cookies, body, loggedTo))
  }

  /** A result exists exactly when the response was received and read; otherwise only the error. */
  lemma ResultIffReceived(
    httpMethod: Bytes, url: Bytes, headers: map<Bytes, Bytes>, cookies: map<Bytes, Bytes>,
    body: Bytes, outcome: Outcome, loggedTo: Bytes)
    ensures AttemptResult(httpMethod, url, headers, cookies, body, outcome, loggedTo).Ok? <==> outcome.Received?
    ensures !outcome.Received? ==>
      AttemptResult(httpMethod, url, headers, cookies, body, outcome, loggedTo) == Err(outcome.msg)
  {
  }

  /**
   * A failed attempt, the read failure with its real status code included,
   * is logged with "ERROR", no headers and length 0, and returns only its error.
   */
  lemma FailedAttempt(
    now: Bytes, httpMethod: Bytes, url: Bytes, headers: map<Bytes, Bytes>,
    cookies: map<Bytes, Bytes>, body: Bytes, outcome: Outcome, loggedTo: Bytes)
    requires !outcome.Received? && outcome.msg != []
    ensures var e := AttemptEntry(now, httpMethod, url, headers, cookies, body, outcome);
      && e.response == ResponseSummary(ErrorMarker, map[], 0, [])
      && e.error == outcome.msg
      && e.request.httpMethod == ToUpper(httpMethod)
    ensures AttemptResult(httpMethod, url, headers, cookies, body, outcome, loggedTo) == Err(outcome.msg)
  {
  }

  /**
   * On success the result and the record agree: the same upper-cased method,
   * status and flattened headers; the result carries the whole content, the
   * record its preview; the request is echoed in both.
   */
  lemma SuccessfulAttempt(
    now: Bytes, httpMethod: Bytes, url: Bytes, headers: map<Bytes, Bytes>,
    cookies: map<Bytes, Bytes>, body: Bytes, outcome: Outcome, loggedTo: Bytes)
    requires outcome.Received?
    ensures var e := AttemptEntry(now, httpMethod, url, headers, cookies, body, outcome);
      var res := AttemptResult(httpMethod, url, headers, cookies, body, outcome, loggedTo);
      && res.Ok?
      && res.value.httpMethod == e.request.httpMethod == ToUpper(httpMethod)
      && e.response.statusCode == Code(res.value.statusCode) && res.value.statusCode == outcome.status
      && res.value.responseHeaders == e.response.headers == Flatten(outcome.headers)
      && res.value.responseContent == outcome.body
      && res.value.responseLength == e.response.contentLength == |outcome.body|
      && e.response.contentPreview == Preview(outcome.body)
      && e.error == []
      && res.value.requestHeaders == e.request.headers == headers
      && res.value.requestCookies == e.request.cookies == cookies
      && res.value.requestBody == e.request.body == body
      && res.value.url == e.request.url == url
      && res.value.loggedTo == loggedTo
  {
  }

  /**
   * `makeHTTPRequestWithLogging`. `exchange` is the HTTP client, `now` the
   * time of the call. Every path appends exactly one record.
   */
  method Execute(
    log: AuditLog, now: Bytes, exchange: WireRequest -> Outcome,
    httpMethod: Bytes, url: Bytes, headers: map<Bytes, Bytes>, cookies: map<Bytes, Bytes>,
    body: Bytes, timeout: real) returns (res: Result<HTTPResult, Bytes>)
    requires log.Valid()
    modifies log
    ensures log.Valid()
    ensures var outcome := exchange(OutgoingRequest(httpMethod, url, headers, cookies, body, timeout));
      && log.entries == old(log.entries) + [AttemptEntry(now, httpMethod, url, headers, cookies, body, outcome)]
      && res == AttemptResult(httpMethod, url, headers, cookies, body, outcome, log.filePath)
  {
    var upper := ToUpper(httpMethod);
    var bodyReader := if body != [] then Some(body) else None;
    var request := WireRequest(upper, url, bodyReader, headers, cookies, ClientTimeout(timeout));
    var outcome := exchange(request);
    match outcome {
      case ConstructFailed(msg) =>
        var _ := log.Record(now, upper, url, headers, cookies, body, 0, map[], [], 0, msg);
        res := Err(msg);
      case NetworkFailed(msg) =>
        var _ := log.Record(now, upper, url, headers, cookies, body, 0, map[], [], 0, msg);
        res := Err(msg);
      case ReadFailed(status, msg) =>
        var _ := log.Record(now, upper, url, headers, cookies, body, status, map[], [], 0, msg);
        res := Err(msg);
      case Received(status, h, content) =>
        var responseHeaders := FlattenHeaders(h);
        var logPath := log.Record(now, upper, url, headers, cookies, body,
                                  status, responseHeaders, content, |content|, []);
        res := Ok(HTTPResult(upper, url, status, responseHeaders, content, |content|,
                             headers, cookies, body, logPath));
    }
  }
}
