/**
 * The audit logger: the record written for one HTTP attempt
 * (`logRequestResponse`) and the process-lifetime log it is appended to.
 */
module Audit {
  import opened Strings

  /** The logged status: the response code, or the literal "ERROR" that replaces it on failure. */
  datatype Status = Code(code: int) | ErrorMarker

  /** The request as echoed into the record. */
  datatype RequestEcho = RequestEcho(
    httpMethod: Bytes,
    url: Bytes,
    headers: map<Bytes, Bytes>,
    cookies: map<Bytes, Bytes>,
    body: Bytes,
    bodyLength: int)

  /** The response summary of the record. */
  datatype ResponseSummary = ResponseSummary(
    statusCode: Status,
    headers: map<Bytes, Bytes>,
    contentLength: int,
    contentPreview: Bytes)

  /** One audit record (Go's LogData); an empty error stands for the omitted field. */
  datatype LogData = LogData(
    timestamp: Bytes,
    request: RequestEcho,
    response: ResponseSummary,
    error: Bytes)

  /** Number of leading response bytes kept in the preview. */
  const PreviewLimit: nat := 500

  /** Appended to a preview that was cut. */
  const TruncationMarker: Bytes := Ascii("...")

  function Min(a: int, b: int): int {
    if a <= b then a else b
  }

  /**
   * The content preview: a response longer than 500 bytes is cut to its
   * first 500 bytes and marked with "..."; a shorter one is kept whole.
   */
  function Preview(content: Bytes): (p: Bytes)
    ensures |p| == if |content| <= PreviewLimit then |content| else PreviewLimit + |TruncationMarker|
    ensures p[..Min(|content|, PreviewLimit)] == content[..Min(|content|, PreviewLimit)]
    ensures |content| <= PreviewLimit ==> p == content
    ensures |content| > PreviewLimit ==> p[PreviewLimit..] == TruncationMarker
  {
    if |content| > PreviewLimit then content[..PreviewLimit] + TruncationMarker else content
  }

  /**
   * The preview is the whole content exactly when nothing was cut, or when
   * the bytes cut away happen to be "..." themselves.
   */
  lemma PreviewKeepsContent(content: Bytes)
    ensures Preview(content) == content <==>
              |content| <= PreviewLimit
              || (|content| == PreviewLimit + 3 && content[PreviewLimit..] == TruncationMarker)
  {
  }

  /** A preview of a preview is the same preview. */
  lemma PreviewIdempotent(content: Bytes)
    ensures Preview(Preview(content)) == Preview(content)
  {
  }

  /**
   * Builds the record for one attempt. A non-empty error message replaces
   * the status with "ERROR", the response headers with an empty map and the
   * content length with 0; the preview rule applies in either case.
   */
  function BuildRecord(
    timestamp: Bytes,
    httpMethod: Bytes, url: Bytes, headers: map<Bytes, Bytes>, cookies: map<Bytes, Bytes>, body: Bytes,
    statusCode: int, responseHeaders: map<Bytes, Bytes>, responseContent: Bytes,
    responseLength: int, errorMsg: Bytes): (r: LogData)
    ensures r.timestamp == timestamp && r.error == errorMsg
    ensures r.request == RequestEcho(httpMethod, url, headers, cookies, body, |body|)
    ensures r.response.statusCode.ErrorMarker? <==> errorMsg != []
    ensures errorMsg != [] ==> r.response.headers == map[] && r.response.contentLength == 0
    ensures errorMsg == [] ==>
              && r.response.statusCode == Code(statusCode)
              && r.response.headers == responseHeaders
              && r.response.contentLength == responseLength
    ensures r.response.contentPreview == Preview(responseContent)
    ensures WellFormed(r)
  {
    var initial := LogData(
      timestamp,
      RequestEcho(httpMethod, url, headers, cookies, body, |body|),
      ResponseSummary(Code(statusCode), responseHeaders, responseLength, []),
      errorMsg);
    var overridden :=
      if errorMsg != [] then
        initial.(response := initial.response.(statusCode := ErrorMarker, headers := map[], contentLength := 0))
      else initial;
    overridden.(response := overridden.response.(contentPreview := Preview(responseContent)))
  }

  /** What every record in the log satisfies, whatever the attempt's outcome. */
  ghost predicate WellFormed(e: LogData) {
    && e.request.bodyLength == |e.request.body|
    && (e.response.statusCode.ErrorMarker? <==> e.error != [])
    && (e.error != [] ==> e.response.headers == map[] && e.response.contentLength == 0)
    && |e.response.contentPreview| <= PreviewLimit + |TruncationMarker|
  }

  /** Name of the per-user log directory under the home directory. */
  const LogDirName: Bytes := Ascii("mcp_requests_logs")

  /** The log directory under a home directory (`filepath.Join(homeDir, "mcp_requests_logs")`). */
  function LogDir(home: Bytes): (d: Bytes)
    ensures |d| == |home| + 1 + |LogDirName|
    ensures d[..|home|] == home && d[|home| + 1..] == LogDirName
    ensures d[|home|] as int == '/' as int
  {
    home + Ascii("/") + LogDirName
  }

  /** Different home directories get different log directories. */
  lemma LogDirInjective(home1: Bytes, home2: Bytes)
    ensures LogDir(home1) == LogDir(home2) <==> home1 == home2
  {
  }

  /** Path of the log file named by a "20060102_150405" time stamp inside `dir`. */
  function LogPath(dir: Bytes, stamp: Bytes): (p: Bytes)
    ensures |p| == |dir| + |stamp| + 14
    ensures p[..|dir|] == dir && p[|dir| + 10..|dir| + 10 + |stamp|] == stamp
    ensures p[|dir|..|dir| + 10] == Ascii("/requests_") && p[|dir| + 10 + |stamp|..] == Ascii(".log")
  {
    dir + Ascii("/requests_") + stamp + Ascii(".log")
  }

  /** Different time stamps name different log files. */
  lemma LogPathInjective(dir: Bytes, stamp1: Bytes, stamp2: Bytes)
    ensures LogPath(dir, stamp1) == LogPath(dir, stamp2) <==> stamp1 == stamp2
  {
    var pre := dir + Ascii("/requests_");
    var p1, p2 := LogPath(dir, stamp1), LogPath(dir, stamp2);
    if p1 == p2 {
      assert |stamp1| == |stamp2|;
      assert p1 == pre + stamp1 + Ascii(".log");
      assert stamp1 == p1[|pre|..|pre| + |stamp1|];
      assert stamp2 == p2[|pre|..|pre| + |stamp2|];
    }
  }

  /**
   * The path the logger reports, as the source computes it: the file name is
   * rebuilt from the clock at the time of the call, while the file written to
   * was named from the clock at start-up. Once the second has changed the
   * reported path names a file that was never written.
   */
  lemma ReportedPathAsWritten(dir: Bytes, startStamp: Bytes, nowStamp: Bytes)
    requires startStamp != nowStamp
    ensures LogPath(dir, nowStamp) != LogPath(dir, startStamp)
  {
    LogPathInjective(dir, startStamp, nowStamp);
  }

  /** A concrete instance: a process started one second before the request. */
  lemma ReportedPathMissesLogFile(home: Bytes)
    ensures LogPath(LogDir(home), Ascii("20260101_120001"))
         != LogPath(LogDir(home), Ascii("20260101_120000"))
  {
    assert Ascii("20260101_120001")[14] != Ascii("20260101_120000")[14];
    ReportedPathAsWritten(LogDir(home), Ascii("20260101_120000"), Ascii("20260101_120001"));
  }

  /**
   * The process-lifetime log: the file opened at start-up, and the records
   * appended to it, oldest first.
   */
  class AuditLog {
    const filePath: Bytes
    var entries: seq<LogData>

    ghost predicate Valid()
      reads this
    {
      forall i | 0 <= i < |entries| :: WellFormed(entries[i])
    }

    /** Start-up: the file named by the start time in the log directory, with nothing written yet. */
    constructor (home: Bytes, startStamp: Bytes)
      ensures Valid()
      ensures filePath == LogPath(LogDir(home), startStamp) && entries == []
    {
      filePath := LogPath(LogDir(home), startStamp);
      entries := [];
    }

    /**
     * `logRequestResponse`: appends exactly one record and reports where it
     * was written. `now` is the RFC 3339 time of the call.
     */
    method Record(
      now: Bytes,
      httpMethod: Bytes, url: Bytes, headers: map<Bytes, Bytes>, cookies: map<Bytes, Bytes>, body: Bytes,
      statusCode: int, responseHeaders: map<Bytes, Bytes>, responseContent: Bytes,
      responseLength: int, errorMsg: Bytes) returns (path: Bytes)
      requires Valid()
      modifies this
      ensures Valid()
      ensures entries == old(entries) + [BuildRecord(now, httpMethod, url, headers, cookies, body,
                                                     statusCode, responseHeaders, responseContent,
                                                     responseLength, errorMsg)]
      ensures path == filePath
    {
      var logData := BuildRecord(now, httpMethod, url, headers, cookies, body,
                                 statusCode, responseHeaders, responseContent, responseLength, errorMsg);
      entries := entries + [logData];
      path := filePath;
    }
  }
}
