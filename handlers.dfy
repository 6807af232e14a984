/**
 * The tool handlers: `createHTTPHandler` for the seven verbs and
 * `httpRawRequestHandler`. They normalise the caller's decoded JSON
 * arguments, call the executor and shape its answer into a tool reply.
 */
module Handlers {
  import opened Wrappers
  import opened Strings
  import opened Audit
  import opened Executor

  /** A decoded JSON value, the dynamic types an argument can have in Go. */
  datatype Json =
    | Null
    | Bool(b: bool)
    | Number(n: real)
    | Str(s: Bytes)
    | Object(fields: map<Bytes, Json>)
    | Array(items: seq<Json>)

  /** The tool call's argument object. */
  type Arguments = map<Bytes, Json>

  const UrlKey: Bytes := Ascii("url")
  const HeadersKey: Bytes := Ascii("headers")
  const CookiesKey: Bytes := Ascii("cookies")
  const BodyKey: Bytes := Ascii("body")
  const TimeoutKey: Bytes := Ascii("timeout")
  const MethodKey: Bytes := Ascii("method")
  const RawBodyKey: Bytes := Ascii("raw_body")

  /** Seconds allowed for a request when the caller gives no timeout. */
  const DefaultTimeout: real := 30.0

  /** Method of a raw request when the caller gives none. */
  const DefaultMethod: Bytes := Ascii("GET")

  const UrlRequired: Bytes := Ascii("url parameter is required") + Ascii(" and must be a string")
  const ErrorPrefix: Bytes := Ascii("Error: ")

  /** The verbs a handler is registered for, one tool each. */
  const Verbs: seq<Bytes> :=
    [Ascii("GET"), Ascii("POST"), Ascii("PUT"), Ascii("DELETE"),
     Ascii("PATCH"), Ascii("HEAD"), Ascii("OPTIONS")]

  /** Reading an argument: a missing key reads as nil, like a JSON null. */
  function Arg(args: Arguments, key: Bytes): Json {
    if key in args then args[key] else Null
  }

  /**
   * The string-valued entries of an object argument; nothing when the
   * argument is absent or not an object.
   */
  function StringEntries(v: Json): (m: map<Bytes, Bytes>)
    ensures forall k :: k in m <==> v.Object? && k in v.fields && v.fields[k].Str?
    ensures forall k | k in m :: v.Object? && k in v.fields && v.fields[k] == Str(m[k])
  {
    if v.Object? then map k | k in v.fields && v.fields[k].Str? :: v.fields[k].s else map[]
  }

  /** The filtering loop the handlers run over `headers` and over `cookies`. */
  method FilterStringEntries(v: Json) returns (m: map<Bytes, Bytes>)
    ensures m == StringEntries(v)
  {
    m := map[];
    if v.Object? {
      var fields := v.fields;
      var todo := fields.Keys;
      while todo != {}
        invariant todo <= fields.Keys
        invariant forall k :: k in m <==> k in fields && k !in todo && fields[k].Str?
        invariant forall k | k in m :: fields[k] == Str(m[k])
        decreases todo
      {
        var key :| key in todo;
        if fields[key].Str? {
          m := m[key := fields[key].s];
        }
        todo := todo - {key};
      }
    }
  }

  /** The executor's inputs, as a handler derives them from the arguments. */
  datatype CallArgs = CallArgs(
    url: Bytes,
    headers: map<Bytes, Bytes>,
    cookies: map<Bytes, Bytes>,
    body: Bytes,
    timeout: real)

  /**
   * Normalisation by a verb handler: a missing or non-string url is refused;
   * headers and cookies keep their string entries; body defaults to the
   * empty string and timeout to 30 seconds.
   */
  function VerbCallArgs(args: Arguments): (c: Option<CallArgs>)
    ensures c.None? <==> !Arg(args, UrlKey).Str?
    ensures c.Some? ==>
      && c.value.url == Arg(args, UrlKey).s
      && c.value.headers == StringEntries(Arg(args, HeadersKey))
      && c.value.cookies == StringEntries(Arg(args, CookiesKey))
      && c.value.body == (if Arg(args, BodyKey).Str? then Arg(args, BodyKey).s else [])
      && c.value.timeout == (if Arg(args, TimeoutKey).Number? then Arg(args, TimeoutKey).n else DefaultTimeout)
  {
    var url := Arg(args, UrlKey);
    var body := Arg(args, BodyKey);
    var timeout := Arg(args, TimeoutKey);
    if !url.Str? then None
    else Some(CallArgs(url.s,
                       StringEntries(Arg(args, HeadersKey)),
                       StringEntries(Arg(args, CookiesKey)),
                       if body.Str? then body.s else [],
                       if timeout.Number? then timeout.n else DefaultTimeout))
  }

  /** The body sent for a raw request and the advisory warning, empty when none. */
  datatype Coercion = Coercion(body: Bytes, warning: Bytes)

  const WarningLead: Bytes :=
    EncodeRune('\U{26A0}') + EncodeRune('\U{FE0F}') + Ascii(" AUTO-CONVERTED: ")
  const Arrow: Bytes := Ascii(" ") + EncodeRune('\U{2192}') + Ascii(" ")

  const DictWarning: Bytes := WarningLead + Ascii("Dict") + Arrow + Ascii("JSON string")
  const ArrayWarning: Bytes := WarningLead + Ascii("Array") + Arrow + Ascii("JSON string")

  /** The warning for a scalar, naming its Go type as `%T` prints it. */
  function ScalarWarning(typeName: Bytes): Bytes {
    WarningLead + typeName + Arrow + Ascii("string")
  }

  /**
   * Coercion of `raw_body`: nil gives an empty body, a string is sent as it
   * is; an object or array is sent as its JSON text (`marshal`), and any other
   * value as its `%v` text (`formatFloat` for numbers), each with a warning.
   */
  function CoerceRawBody(rawBody: Json, marshal: Json -> Bytes, formatFloat: real -> Bytes): (c: Coercion)
    ensures c.warning != [] <==> rawBody.Object? || rawBody.Array? || rawBody.Bool? || rawBody.Number?
    ensures rawBody.Null? ==> c.body == []
    ensures rawBody.Str? ==> c.body == rawBody.s
    ensures rawBody.Object? ==> c.body == marshal(rawBody) && c.warning == DictWarning
    ensures rawBody.Array? ==> c.body == marshal(rawBody) && c.warning == ArrayWarning
    ensures rawBody.Bool? ==>
      && c.body == (if rawBody.b then Ascii("true") else Ascii("false"))
      && c.warning == ScalarWarning(Ascii("bool"))
    ensures rawBody.Number? ==> c.body == formatFloat(rawBody.n) && c.warning == ScalarWarning(Ascii("float64"))
  {
    match rawBody
    case Null => Coercion([], [])
    case Str(s) => Coercion(s, [])
    case Object(_) => Coercion(marshal(rawBody), DictWarning)
    case Array(_) => Coercion(marshal(rawBody), ArrayWarning)
    case Bool(b) => Coercion(if b then Ascii("true") else Ascii("false"), ScalarWarning(Ascii("bool")))
    case Number(n) => Coercion(formatFloat(n), ScalarWarning(Ascii("float64")))
  }

  /** The branches of the raw handler that set the body and the conversion warning. */
  method CoerceRawBodyBranches(rb: Json, marshal: Json -> Bytes, formatFloat: real -> Bytes)
    returns (rawBody: Bytes, conversionInfo: Bytes)
    ensures Coercion(rawBody, conversionInfo) == CoerceRawBody(rb, marshal, formatFloat)
  {
    rawBody := [];
    conversionInfo := [];
    match rb {
      case Null =>
      case Str(s) =>
        rawBody := s;
      case Object(_) =>
        rawBody := marshal(rb);
        conversionInfo := DictWarning;
      case Array(_) =>
        rawBody := marshal(rb);
        conversionInfo := ArrayWarning;
      case Bool(b) =>
        rawBody := if b then Ascii("true") else Ascii("false");
        conversionInfo := ScalarWarning(Ascii("bool"));
      case Number(n) =>
        rawBody := formatFloat(n);
        conversionInfo := ScalarWarning(Ascii("float64"));
    }
  }

  /** A raw request as the raw handler derives it: its method, executor inputs and warning. */
  datatype RawCall = RawCall(httpMethod: Bytes, call: CallArgs, warning: Bytes)

  /**
   * Normalisation by the raw handler: as for a verb, except that the method
   * comes from the arguments (GET by default) and the body is `raw_body`
   * coerced.
   */
  function RawCallArgs(args: Arguments, marshal: Json -> Bytes, formatFloat: real -> Bytes): (c: Option<RawCall>)
    ensures c.None? <==> !Arg(args, UrlKey).Str?
    ensures c.Some? ==>
      var coerced := CoerceRawBody(Arg(args, RawBodyKey), marshal, formatFloat);
      && c.value.httpMethod == (if Arg(args, MethodKey).Str? then Arg(args, MethodKey).s else DefaultMethod)
      && c.value.call.url == Arg(args, UrlKey).s
      && c.value.call.headers == StringEntries(Arg(args, HeadersKey))
      && c.value.call.cookies == StringEntries(Arg(args, CookiesKey))
      && c.value.call.body == coerced.body
      && c.value.warning == coerced.warning
      && c.value.call.timeout == (if Arg(args, TimeoutKey).Number? then Arg(args, TimeoutKey).n else DefaultTimeout)
  {
    var url := Arg(args, UrlKey);
    var m := Arg(args, MethodKey);
    var timeout := Arg(args, TimeoutKey);
    var coerced := CoerceRawBody(Arg(args, RawBodyKey), marshal, formatFloat);
    if !url.Str? then None
    else Some(RawCall(if m.Str? then m.s else DefaultMethod,
                      CallArgs(url.s,
                               StringEntries(Arg(args, HeadersKey)),
                               StringEntries(Arg(args, CookiesKey)),
                               coerced.body,
                               if timeout.Number? then timeout.n else DefaultTimeout),
                      coerced.warning))
  }

  /** A tool reply: error text, or the result with the optional `conversion_warning` field. */
  datatype Reply =
    | ToolError(text: Bytes)
    | ToolText(result: HTTPResult, conversionWarning: Option<Bytes>)

  /**
   * The reply for an executor answer: an error becomes "Error: " and its
   * text; a result gains a warning exactly when one was set.
   */
  function ReplyOf(res: Result<HTTPResult, Bytes>, conversionInfo: Bytes): (r: Reply)
    ensures r.ToolError? <==> res.Err?
    ensures res.Err? ==> r.text == ErrorPrefix + res.error
    ensures res.Ok? ==> r.result == res.value
    ensures res.Ok? ==> (r.conversionWarning.Some? <==> conversionInfo != [])
    ensures res.Ok? && conversionInfo != [] ==> r.conversionWarning == Some(conversionInfo)
  {
    match res
    case Err(e) => ToolError(ErrorPrefix + e)
    case Ok(result) => ToolText(result, if conversionInfo != [] then Some(conversionInfo) else None)
  }

  /** Every registered verb is already upper case, so the executor sends it unchanged. */
  lemma VerbsAreUpperCase()
    ensures forall i | 0 <= i < |Verbs| :: ToUpper(Verbs[i]) == Verbs[i]
  {
  }

  /**
   * A verb tool logs and returns its verb exactly as registered: the
   * executor's upper-casing leaves each of the seven verbs unchanged.
   */
  lemma RegisteredVerbUnchanged(
    i: nat, now: Bytes, url: Bytes, headers: map<Bytes, Bytes>, cookies: map<Bytes, Bytes>,
    body: Bytes, timeout: real, outcome: Outcome, loggedTo: Bytes)
    requires i < |Verbs|
    ensures OutgoingRequest(Verbs[i], url, headers, cookies, body, timeout).httpMethod == Verbs[i]
    ensures AttemptEntry(now, Verbs[i], url, headers, cookies, body, outcome).request.httpMethod == Verbs[i]
    ensures outcome.Received? ==>
      AttemptResult(Verbs[i], url, headers, cookies, body, outcome, loggedTo).value.httpMethod == Verbs[i]
  {
    VerbsAreUpperCase();
  }

  /**
   * A successful raw reply carries a conversion warning exactly when
   * `raw_body` was an object, an array or a scalar other than a string.
   */
  lemma RawWarningIffCoerced(
    args: Arguments, marshal: Json -> Bytes, formatFloat: real -> Bytes,
    outcome: Outcome, loggedTo: Bytes)
    requires RawCallArgs(args, marshal, formatFloat).Some?
    ensures var rc := RawCallArgs(args, marshal, formatFloat).value;
      var reply := ReplyOf(AttemptResult(rc.httpMethod, rc.call.url, rc.call.headers, rc.call.cookies,
                                         rc.call.body, outcome, loggedTo), rc.warning);
      var rawBody := Arg(args, RawBodyKey);
      (reply.ToolText? && reply.conversionWarning.Some?) <==>
        outcome.Received? && (rawBody.Object? || rawBody.Array? || rawBody.Bool? || rawBody.Number?)
  {
  }

  /**
   * An object `raw_body` reaches the client as its JSON text, and a string
   * one byte for byte, with no warning.
   */
  lemma RawBodyReachesClient(args: Arguments, marshal: Json -> Bytes, formatFloat: real -> Bytes)
    requires Arg(args, UrlKey).Str?
    ensures var rc := RawCallArgs(args, marshal, formatFloat).value;
      var w := OutgoingRequest(rc.httpMethod, rc.call.url, rc.call.headers, rc.call.cookies,
                               rc.call.body, rc.call.timeout);
      var rawBody := Arg(args, RawBodyKey);
      && (rawBody.Object? && marshal(rawBody) != [] ==>
            w.body == Some(marshal(rawBody)) && rc.warning == DictWarning)
      && (rawBody.Str? && rawBody.s != [] ==> w.body == Some(rawBody.s) && rc.warning == [])
      && (rawBody.Null? ==> w.body == None && rc.warning == [])
  {
  }

  /**
   * The handler of one verb tool (`createHTTPHandler(verb)`). A refused url
   * writes nothing to the log; otherwise exactly one attempt is logged.
   */
  method HandleVerb(
    log: AuditLog, now: Bytes, exchange: WireRequest -> Outcome, verb: Bytes, args: Arguments)
    returns (reply: Reply)
    requires log.Valid()
    modifies log
    ensures log.Valid()
    ensures VerbCallArgs(args).None? ==> reply == ToolError(UrlRequired) && log.entries == old(log.entries)
    ensures VerbCallArgs(args).Some? ==>
      var c := VerbCallArgs(args).value;
      var outcome := exchange(OutgoingRequest(verb, c.url, c.headers, c.cookies, c.body, c.timeout));
      && log.entries == old(log.entries) + [AttemptEntry(now, verb, c.url, c.headers, c.cookies, c.body, outcome)]
      && reply == ReplyOf(AttemptResult(verb, c.url, c.headers, c.cookies, c.body, outcome, log.filePath), [])
  {
    var url := Arg(args, UrlKey);
    if !url.Str? {
      return ToolError(UrlRequired);
    }
    var headers := FilterStringEntries(Arg(args, HeadersKey));
    var cookies := FilterStringEntries(Arg(args, CookiesKey));
    var body: Bytes := [];
    var b := Arg(args, BodyKey);
    if b.Str? {
      body := b.s;
    }
    var timeout := DefaultTimeout;
    var t := Arg(args, TimeoutKey);
    if t.Number? {
      timeout := t.n;
    }
    var result := Execute(log, now, exchange, verb, url.s, headers, cookies, body, timeout);
    match result {
      case Err(e) => reply := ToolError(ErrorPrefix + e);
      case Ok(r) => reply := ToolText(r, None);
    }
  }

  /**
   * `httpRawRequestHandler`: like a verb handler, with the method taken from
   * the arguments and `raw_body` coerced; the warning is attached only when
   * coercion happened.
   */
  method HandleRaw(
    log: AuditLog, now: Bytes, exchange: WireRequest -> Outcome, args: Arguments,
    marshal: Json -> Bytes, formatFloat: real -> Bytes)
    returns (reply: Reply)
    requires log.Valid()
    modifies log
    ensures log.Valid()
    ensures RawCallArgs(args, marshal, formatFloat).None? ==>
      reply == ToolError(UrlRequired) && log.entries == old(log.entries)
    ensures RawCallArgs(args, marshal, formatFloat).Some? ==>
      var rc := RawCallArgs(args, marshal, formatFloat).value;
      var c := rc.call;
      var outcome := exchange(OutgoingRequest(rc.httpMethod, c.url, c.headers, c.cookies, c.body, c.timeout));
      && log.entries == old(log.entries) + [AttemptEntry(now, rc.httpMethod, c.url, c.headers, c.cookies, c.body, outcome)]
      && reply == ReplyOf(AttemptResult(rc.httpMethod, c.url, c.headers, c.cookies, c.body, outcome, log.filePath),
                          rc.warning)
  {
    var url := Arg(args, UrlKey);
    if !url.Str? {
      return ToolError(UrlRequired);
    }
    var httpMethod := DefaultMethod;
    var m := Arg(args, MethodKey);
    if m.Str? {
      httpMethod := m.s;
    }
    var headers := FilterStringEntries(Arg(args, HeadersKey));
    var cookies := FilterStringEntries(Arg(args, CookiesKey));

    var rawBody, conversionInfo := CoerceRawBodyBranches(Arg(args, RawBodyKey), marshal, formatFloat);

    var timeout := DefaultTimeout;
    var t := Arg(args, TimeoutKey);
    if t.Number? {
      timeout := t.n;
    }
    var result := Execute(log, now, exchange, httpMethod, url.s, headers, cookies, rawBody, timeout);
    match result {
      case Err(e) =>
        reply := ToolError(ErrorPrefix + e);
      case Ok(r) =>
        if conversionInfo != [] {
          reply := ToolText(r, Some(conversionInfo));
        } else {
          reply := ToolText(r, None);
        }
    }
  }
}
