# go-mcp-request: a verified model of the logged HTTP executor

The program exposes one tool per HTTP verb, and a "raw" tool, to an MCP
client. Each tool call issues one HTTP request and appends one audit record
of the request and its outcome to a log file opened at start-up. This
project models, in Dafny, the deterministic part of `main.go`:

- **Audit record construction** (`logRequestResponse`), in module `Audit`.
  It builds the record that echoes the request. On an error it replaces the
  status with `"ERROR"`, the response headers with an empty map and the
  content length with 0. It cuts the content preview to 500 bytes plus
  `"..."`. The class `Audit.AuditLog` holds the log file's path and the
  records appended so far. Its invariant says every record is well formed.
- **The executor** (`makeHTTPRequestWithLogging`), in module `Executor`.
  The HTTP client is a function `exchange` from the built request to an
  `Outcome`: construction failure, network failure, read failure (with the
  status code) or a received response. `Execute` is proved against the
  specification functions `AttemptEntry` and `AttemptResult`. Every path
  appends exactly one record, always with the upper-cased method. Only a
  received response yields an `HTTPResult`. The header-flattening loop is
  `FlattenHeaders`, proved against `Flatten`.
- **The handlers** (`createHTTPHandler`, `httpRawRequestHandler`), in module
  `Handlers`. Arguments are decoded JSON values (`Json`). A missing key reads
  as nil. The filtering loop is `FilterStringEntries`, proved against
  `StringEntries`. Raw-body coercion is `CoerceRawBodyBranches`, proved
  against `CoerceRawBody`. A reply is an error text or the result, with a
  `conversion_warning` exactly when coercion set one.

Go strings are byte sequences (`Strings.Bytes`). `len` counts bytes. Literals are their UTF-8 bytes, built with
`Ascii` and `EncodeRune`. The preview is cut at 500 bytes, not characters,
because Go slices strings by byte; a cut can split a multi-byte character.

Parameters stand for what the model cannot see:
- `exchange` stands for the network (`http.NewRequest`, `client.Do`, `io.ReadAll`).
- `now` is the RFC 3339 time of a call.
- `marshal` stands for `json.Marshal`.
- `formatFloat` stands for `%v` on a float64.
`%v` on a bool and `%T` on a bool or float64 are modelled exactly.

## Model

| member | source | states |
|---|---|---|
| `Audit.Preview` | main.go:118-123 | content of at most 500 bytes is kept whole; longer content keeps its first 500 bytes followed by "...", 503 bytes in all |
| `Audit.PreviewKeepsContent` | main.go:118-123 | the preview equals the content iff the content has at most 500 bytes, or exactly 503 bytes ending in "..." |
| `Audit.PreviewIdempotent` | main.go:118-123 | taking the preview of a preview changes nothing |
| `Audit.BuildRecord` | main.go:90-123 | the record echoes method, url, headers, cookies and body, with body length = len(body); status is "ERROR" iff the error text is non-empty, and then headers are empty and content length 0, whatever status was passed; otherwise status, headers and length are as given; the preview rule applies in both cases; the record is well formed |
| `Audit.LogDir` | main.go:66 | the log directory is the home directory, a "/" and `mcp_requests_logs` |
| `Audit.LogDirInjective` | main.go:66 | two home directories share a log directory exactly when they are the same directory |
| `Audit.LogPath` | main.go:76-77 | the log file's path is the directory, then `/requests_`, the time stamp and `.log`; the stamp sits at a fixed place after the directory; main.go:128 rebuilds the same name from the call-time stamp |
| `Audit.LogPathInjective` | main.go:76-77 | two log file paths in one directory are equal iff their time stamps are equal |
| `Audit.ReportedPathAsWritten` | main.go:128 | the path the source returns is rebuilt from the current time, so it differs from the file opened at start-up whenever the time stamps differ |
| `Audit.ReportedPathMissesLogFile` | main.go:76-79 | a concrete case: started at 12:00:00, called at 12:00:01, the reported path is not the log file |
| `Audit.AuditLog.constructor` | main.go:66-84 | the log starts empty and is bound to the file in the home's log directory named by the start-up time stamp |
| `Audit.AuditLog.Record` | main.go:90-129 | appends exactly the built record, keeps every record well formed, and returns the path of the file written to |
| `Strings.ToUpper` | main.go:141 | the method keeps its length, has no lower-case ASCII letter left, and only a–z bytes change |
| `Strings.ToUpperIdempotent` | main.go:141 | upper-casing an upper-cased method changes nothing |
| `Strings.ToUpperFixed` | main.go:141 | a method is unchanged by upper-casing iff it has no lower-case ASCII letter |
| `Executor.TruncateTowardZero` | main.go:133 | float-to-integer conversion drops the fraction toward zero |
| `Executor.ClientTimeoutAsWritten` | main.go:133 | as written, the client timeout is always a whole number of seconds, and there is a deadline iff at least one full second was asked for |
| `Executor.ClientTimeout` | main.go:133 | the intended client timeout is the seconds given, in nanoseconds, truncated once; it sets a deadline iff at least 1 ns was asked for |
| `Executor.SubSecondTimeoutDropped` | main.go:133 | as written, any timeout under one second, such as 0.5, becomes 0, which leaves the client with no deadline; the intended conversion keeps one |
| `Executor.ClientTimeoutWholeSeconds` | main.go:133 | for whole seconds whose nanoseconds fit an int64, the default 30 included, both conversions give seconds × 10^9 |
| `Executor.OutgoingRequest` | main.go:136-155 | the request sent carries the upper-cased method, the url, the caller's headers and cookies verbatim, and a body iff the body is non-empty |
| `Executor.Flatten` | main.go:171-176 | a key appears iff it had at least one value, and maps to its first value |
| `Executor.FlattenHeaders` | main.go:171-176 | the loop over response headers computes exactly Flatten |
| `Executor.LogInputsOf` | main.go:141-181 | what the executor passes to the logger: each failure passes its error text, no headers, no content and length 0, with status 0 except the read failure, which passes the real status; a success passes no error, its status, the flattened headers, the whole content and its length |
| `Executor.AttemptEntry` | main.go:141-181 | the one record an attempt appends: well formed, stamped with the call time, echoing the upper-cased method and the request, carrying the error text passed to the logger and the preview of the content passed |
| `Executor.AttemptResult` | main.go:142-194 | an attempt returns an error iff the response was not received and read, and then exactly that error; a result carries the upper-cased method, a length equal to its content's, the request echo and the log path |
| `Executor.ResultIffReceived` | main.go:141-168 | a result is returned iff the response was received and read; each failure returns only its error |
| `Executor.FailedAttempt` | main.go:141-168 | each of the three failures, the read failure with its real status included, is logged with "ERROR", no headers, length 0, empty preview, the error text and the upper-cased method |
| `Executor.SuccessfulAttempt` | main.go:170-194 | on success result and record agree on the upper-cased method, status and flattened headers; the result holds the whole content and its length, the record its preview; both echo url, headers, cookies and body; the result names the log path |
| `Executor.Execute` | main.go:131-195 | appends exactly one record, the one AttemptEntry specifies for the outcome of the built request, keeps the log well formed, and returns AttemptResult |
| `Handlers.StringEntries` | main.go:206-222 | a key is kept iff the argument is an object and its value there is a string; nothing is kept from an absent or non-object argument |
| `Handlers.FilterStringEntries` | main.go:206-222 | the filtering loop over headers or cookies computes exactly StringEntries |
| `Handlers.VerbCallArgs` | main.go:201-232 | the call is refused iff url is missing or not a string; headers and cookies are their string entries; body defaults to "" and timeout to 30 |
| `Handlers.CoerceRawBody` | main.go:275-294 | a warning is set iff raw_body is an object, array, bool or number; nil gives "", a string is kept verbatim, an object or array becomes its JSON text with the Dict or Array warning, a bool its %v text and a number its %v text with a warning naming the Go type |
| `Handlers.CoerceRawBodyBranches` | main.go:275-294 | the branches assigning rawBody and conversionInfo compute exactly CoerceRawBody |
| `Handlers.RawCallArgs` | main.go:247-299 | as for a verb, but the method defaults to GET and the body is raw_body coerced, with its warning |
| `Handlers.ReplyOf` | main.go:234-240 | an executor error becomes "Error: " and its text; a result gains the warning field iff a warning was set |
| `Handlers.VerbsAreUpperCase` | main.go:327 | the seven registered verbs are unchanged by upper-casing |
| `Handlers.RegisteredVerbUnchanged` | main.go:327-359 | a registered verb tool sends, logs and returns its verb exactly as registered |
| `Handlers.RawWarningIffCoerced` | main.go:306-317 | a raw reply carries conversion_warning iff the request succeeded and raw_body was an object, array, bool or number |
| `Handlers.RawBodyReachesClient` | main.go:278-294 | an object raw_body reaches the client as its JSON text with the Dict warning; a string one byte for byte with no warning; an absent one as no body |
| `Handlers.HandleVerb` | main.go:197-242 | a refused url gives the url error and writes no record; otherwise one record for the normalised call and the reply for its result, without a warning |
| `Handlers.HandleRaw` | main.go:244-318 | a refused url gives the url error and writes no record; otherwise one record for the normalised raw call and the reply for its result with the coercion warning |

## Findings

| source | as written | input that shows it | evidently intended | confidence | as-written member | corrected member |
|---|---|---|---|---|---|---|
| main.go:128 | the returned log path is rebuilt from `time.Now()` at the call | process started at 12:00:00, request at 12:00:01: `logged_to` names `requests_20260101_120001.log`, but records go to `requests_20260101_120000.log` | return the path of the file opened at start-up (main.go:76-79) | high, not executed | `Audit.ReportedPathAsWritten` | `Audit.AuditLog.Record` |
| main.go:133 | `time.Duration(timeout) * time.Second` truncates the seconds before scaling | `timeout = 0.5` gives a client timeout of 0, which `http.Client` treats as no timeout | convert the seconds to nanoseconds, then truncate | high, not executed | `Executor.SubSecondTimeoutDropped` | `Executor.ClientTimeout` |

The rest of the model uses the corrected members. `Execute` reports the
opened file's path. The built request carries `ClientTimeout`.

## Left out

- The HTTP exchange itself (`http.NewRequest`, `client.Do`, `io.ReadAll`, closing the body): the `exchange` parameter stands for it.
- Header key canonicalisation by `req.Header.Set` and cookie formatting by `req.AddCookie`: library behaviour; the built request carries the maps as given.
- Start-up in `init` (home directory, creating the directory, opening the file, logrus set-up) and its panics: OS and file I/O. The constructor only records the chosen path.
- The text of a record on disk (`json.MarshalIndent`, the logrus line) and the JSON text of results: records and replies are kept as structured values.
- Timestamps: the RFC 3339 time and the start-up stamp are opaque parameters.
- `Audit.LogDir`, `Audit.LogPath`: `filepath.Join` path cleaning is not modelled; both join with a single "/". A home directory ending in "/", such as `/root/`, gives `/root//mcp_requests_logs` here, where Go cleans it to `/root/mcp_requests_logs`. `Audit.LogDirInjective` is therefore about the uncleaned join: in Go, `/root/` and `/root` share one log directory.
- `Executor.ClientTimeout`, `Executor.ClientTimeoutAsWritten`, `Executor.TruncateTowardZero`: timeouts, like every `Json.Number`, are Go float64 values modelled as exact reals, with no rounding. Out-of-range float-to-int64 conversion and int64 wrap-around of the nanosecond count are not modelled, because integers are unbounded here. In Go, `time.Duration(1e10) * time.Second` wraps to a negative duration, which leaves the client with no deadline; the model gives one.
- `Executor.ClientTimeoutWholeSeconds`: holds only up to 9,223,372,036 seconds, the largest whole count whose nanoseconds fit an int64; beyond that Go's product wraps around.
- `Strings.ToUpper`: only ASCII a–z are upper-cased. Go also maps other Unicode letters and re-encodes invalid UTF-8, because it applies Unicode case mapping. This agrees with Go on ASCII method names.
- `Executor.FailedAttempt`: assumes the Go error's text is non-empty. With an empty text the source's override would not apply, and `BuildRecord` states that case.
- `Handlers.CoerceRawBody`: `json.Marshal` errors are ignored by the source and cannot arise for decoded JSON; the model does not represent them.
- MCP wiring: tool registration, argument schemas, `ServeStdio` and the process exit in `main`.
- Concurrency: whether concurrent appends to the log are safe belongs to logrus and the file.
