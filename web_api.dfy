/**
 * The request checks of the log web API: the validation of a log write, the file name
 * checks in front of file access, the normalisation of a search request into a log
 * query, and the small-size branch of the human-readable file size.
 */
module WebApi {
  import opened Basics
  import opened Text
  import opened Numerals
  import opened LogQuery

  /** `LogWriteRequest`, without the free-form `Fields` map; a zero timestamp is `None`. */
  datatype LogWriteRequest = LogWriteRequest(
    level: string,
    message: string,
    traceId: string,
    spanId: string,
    service: string,
    caller: string,
    timestamp: Option<int>)

  /** Why `validateLogWriteRequest` refused a request, one constructor per check. */
  datatype WriteRequestError =
    | InvalidLevel(level: string)
    | EmptyMessage
    | MessageTooLong
    | TraceIdTooLong
    | SpanIdTooLong
    | ServiceTooLong

  /** The six levels a log write may carry, written in lower case. */
  const WriteLevels: set<string> := {"debug", "info", "warn", "error", "fatal", "panic"}

  const MaxMessageBytes := 10000
  const MaxTraceIdBytes := 64
  const MaxSpanIdBytes := 32
  const MaxServiceBytes := 100

  /**
   * `validateLogWriteRequest`: the level, then the message, the trace id, the span id and
   * the service, with the first failing check deciding the error. Lengths are in bytes.
   */
  function ValidateLogWriteRequest(req: LogWriteRequest): (r: Outcome<WriteRequestError>)
    ensures r.Pass? <==>
      ToLower(req.level) in WriteLevels
      && 1 <= Utf8Length(req.message) <= MaxMessageBytes
      && Utf8Length(req.traceId) <= MaxTraceIdBytes
      && Utf8Length(req.spanId) <= MaxSpanIdBytes
      && Utf8Length(req.service) <= MaxServiceBytes
    ensures r == Fail(InvalidLevel(req.level)) <==> ToLower(req.level) !in WriteLevels
    ensures r == Fail(EmptyMessage) <==> ToLower(req.level) in WriteLevels && req.message == ""
    ensures r == Fail(MessageTooLong) <==>
      ToLower(req.level) in WriteLevels && Utf8Length(req.message) > MaxMessageBytes
    ensures r == Fail(TraceIdTooLong) <==>
      ToLower(req.level) in WriteLevels && 1 <= Utf8Length(req.message) <= MaxMessageBytes
      && Utf8Length(req.traceId) > MaxTraceIdBytes
    ensures r == Fail(SpanIdTooLong) <==>
      ToLower(req.level) in WriteLevels && 1 <= Utf8Length(req.message) <= MaxMessageBytes
      && Utf8Length(req.traceId) <= MaxTraceIdBytes && Utf8Length(req.spanId) > MaxSpanIdBytes
    ensures r == Fail(ServiceTooLong) <==>
      ToLower(req.level) in WriteLevels && 1 <= Utf8Length(req.message) <= MaxMessageBytes
      && Utf8Length(req.traceId) <= MaxTraceIdBytes && Utf8Length(req.spanId) <= MaxSpanIdBytes
      && Utf8Length(req.service) > MaxServiceBytes
  {
    if ToLower(req.level) !in WriteLevels then Fail(InvalidLevel(req.level))
    else if Utf8Length(req.message) == 0 then Fail(EmptyMessage)
    else if Utf8Length(req.message) > MaxMessageBytes then Fail(MessageTooLong)
    else if Utf8Length(req.traceId) > MaxTraceIdBytes then Fail(TraceIdTooLong)
    else if Utf8Length(req.spanId) > MaxSpanIdBytes then Fail(SpanIdTooLong)
    else if Utf8Length(req.service) > MaxServiceBytes then Fail(ServiceTooLong)
    else Pass
  }

  /** Whether the level is accepted does not depend on its case. */
  lemma LevelCheckIgnoresCase(req: LogWriteRequest, level: string)
    requires EqualFold(req.level, level)
    ensures ValidateLogWriteRequest(req.(level := level)).Pass? == ValidateLogWriteRequest(req).Pass?
  {
  }

  /** Empty trace ids, span ids and services are allowed. */
  lemma OptionalFieldsMayBeEmpty(level: string, message: string, caller: string)
    requires ToLower(level) in WriteLevels
    requires 1 <= |message| && Utf8Length(message) <= MaxMessageBytes
    ensures ValidateLogWriteRequest(LogWriteRequest(level, message, "", "", "", caller, None)) == Pass
  {
  }

  /**
   * The entry `handleLogWrite` hands to the aggregator: the level lower-cased and trimmed,
   * the message and the service trimmed, the timestamp defaulting to `now` and rendered
   * by `formatTime` (`time.Format` with RFC 3339). The trace and span ids are kept as sent.
   */
  function WriteEntry(req: LogWriteRequest, now: int, formatTime: int -> string): (e: LogEntry)
    ensures e.traceId == req.traceId && e.spanId == req.spanId && e.caller == req.caller
    ensures e.timestamp == formatTime(if req.timestamp.Some? then req.timestamp.value else now)
    ensures e.fileId == "" && e.offset == 0
  {
    LogEntry(
      formatTime(if req.timestamp.Some? then req.timestamp.value else now),
      ToLower(TrimSpace(req.level)),
      TrimSpace(req.message),
      req.traceId,
      req.spanId,
      req.caller,
      TrimSpace(req.service),
      "",
      "",
      0)
  }

  /** A string without white space at either end is its own trim. */
  lemma TrimSpaceOfTrimmed(s: string)
    requires s == [] || (!IsSpace(s[0]) && !IsSpace(s[|s| - 1]))
    ensures TrimSpace(s) == s
  {
  }

  /** A level that passes validation is stored as one of the six lower-case level names. */
  lemma AcceptedLevelIsCanonical(req: LogWriteRequest, now: int, formatTime: int -> string)
    requires ValidateLogWriteRequest(req).Pass?
    ensures WriteEntry(req, now, formatTime).level in WriteLevels
    ensures WriteEntry(req, now, formatTime).level == ToLower(req.level)
  {
    var low := ToLower(req.level);
    assert |low| >= 1;
    assert low[0] == LowerChar(req.level[0]);
    assert low[|low| - 1] == LowerChar(req.level[|low| - 1]);
    assert 'a' <= low[0] <= 'z' && 'a' <= low[|low| - 1] <= 'z';
    TrimSpaceOfTrimmed(req.level);
  }

  /**
   * The message is checked before it is trimmed: a message of white space alone passes
   * and is stored empty.
   */
  lemma BlankMessageStoredEmpty(now: int, formatTime: int -> string)
    ensures ValidateLogWriteRequest(LogWriteRequest("info", "   ", "", "", "", "", None)) == Pass
    ensures WriteEntry(LogWriteRequest("info", "   ", "", "", "", "", None), now, formatTime).message == ""
  {
    assert ToLower("info") == "info";
    TrimSpaceEmptyIff("   ");
  }

  /** Why `validateFilename` refused a name. */
  datatype FileNameError = EmptyName | ParentReference | PathSeparator | NameTooLong

  const MaxFileNameBytes := 255

  /** `validateFilename`: not empty, no "..", no '/' or '\\', at most 255 bytes, in that order. */
  function ValidateFilename(name: string): (r: Outcome<FileNameError>)
    ensures r.Pass? <==>
      name != "" && !Contains(name, "..") && !Contains(name, "/") && !Contains(name, "\\")
      && Utf8Length(name) <= MaxFileNameBytes
    ensures r == Fail(EmptyName) <==> name == ""
    ensures r == Fail(ParentReference) <==> name != "" && Contains(name, "..")
    ensures r == Fail(PathSeparator) <==>
      name != "" && !Contains(name, "..") && (Contains(name, "/") || Contains(name, "\\"))
    ensures r == Fail(NameTooLong) <==>
      name != "" && !Contains(name, "..") && !Contains(name, "/") && !Contains(name, "\\")
      && Utf8Length(name) > MaxFileNameBytes
  {
    if name == "" then Fail(EmptyName)
    else if Contains(name, "..") then Fail(ParentReference)
    else if Contains(name, "/") || Contains(name, "\\") then Fail(PathSeparator)
    else if Utf8Length(name) > MaxFileNameBytes then Fail(NameTooLong)
    else Pass
  }

  /** Containing a one-character string is containing that character. */
  lemma ContainsCharIff(s: string, c: char)
    ensures Contains(s, [c]) <==> c in s
  {
    if c in s {
      var i :| 0 <= i < |s| && s[i] == c;
      assert OccursAt(s, [c], i);
    }
    if Contains(s, [c]) {
      var i :| 0 <= i <= |s| - 1 && OccursAt(s, [c], i);
      assert s[i] == s[i..i + 1][0];
    }
  }

  /**
   * An accepted name is a single path component other than "..": it holds no separator,
   * so joining it to the log directory names a file directly inside that directory.
   */
  lemma AcceptedNameIsOneComponent(name: string)
    requires ValidateFilename(name).Pass?
    ensures '/' !in name && '\\' !in name && name != ".."
    ensures 1 <= |name| <= MaxFileNameBytes
  {
    ContainsCharIff(name, '/');
    ContainsCharIff(name, '\\');
    assert OccursAt("..", "..", 0);
  }

  /**
   * The name check of `handleDeleteFile`, which the viewer's delete and content handlers
   * repeat: only ".." and "/" are refused.
   */
  predicate NoTraversal(name: string)
  {
    !Contains(name, "..") && !Contains(name, "/")
  }

  /**
   * The delete check is weaker than `validateFilename`: every name the latter accepts
   * may be deleted, but the empty name and a name with a backslash pass the delete check too.
   */
  lemma DeleteCheckWeaker(name: string)
    ensures ValidateFilename(name).Pass? ==> NoTraversal(name)
    ensures NoTraversal("") && !ValidateFilename("").Pass?
    ensures NoTraversal("a\\b") && !ValidateFilename("a\\b").Pass?
  {
    assert OccursAt("a\\b", "\\", 1);
    ContainsCharIff("a\\b", '/');
    forall i | 0 <= i <= 1 ensures !OccursAt("a\\b", "..", i) {
      assert "a\\b"[i..i + 2][0] == "a\\b"[i];
    }
  }

  /** `LogQueryRequest`; a zero time is `None`. */
  datatype SearchRequest = SearchRequest(
    traceId: string,
    spanId: string,
    level: string,
    service: string,
    message: string,
    startTime: Option<int>,
    endTime: Option<int>,
    limit: int,
    offset: int,
    useIndex: bool)

  /** Why `handleLogSearch` refused a search. */
  datatype SearchError = StartAfterEnd

  const DefaultSearchLimit := 100
  const MaxSearchLimit := 10000

  /** The limit `handleLogSearch` uses: one outside 1..10000 becomes 100. */
  function SearchLimit(limit: int): (l: int)
    ensures 1 <= l <= MaxSearchLimit
    ensures 1 <= limit <= MaxSearchLimit ==> l == limit
    ensures !(1 <= limit <= MaxSearchLimit) ==> l == DefaultSearchLimit
  {
    if limit <= 0 || limit > MaxSearchLimit then DefaultSearchLimit else limit
  }

  /** The offset `handleLogSearch` uses: a negative one becomes 0. */
  function SearchOffset(offset: int): (o: int)
    ensures o >= 0
    ensures o == if offset < 0 then 0 else offset
  {
    if offset < 0 then 0 else offset
  }

  /**
   * `handleLogSearch` up to the query: the paging normalised, a start after the end refused,
   * the text fields trimmed and the level lower-cased.
   */
  function SearchQuery(req: SearchRequest): (r: Result<LogQuery, SearchError>)
    ensures r.Err? <==> req.startTime.Some? && req.endTime.Some? && req.startTime.value > req.endTime.value
    ensures r.Ok? ==> r.value.limit == SearchLimit(req.limit) && r.value.offset == SearchOffset(req.offset)
    ensures r.Ok? ==>
      r.value.traceId == TrimSpace(req.traceId) && r.value.spanId == TrimSpace(req.spanId)
      && r.value.level == ToLower(TrimSpace(req.level)) && r.value.service == TrimSpace(req.service)
      && r.value.message == TrimSpace(req.message)
    ensures r.Ok? ==>
      r.value.startTime == req.startTime && r.value.endTime == req.endTime
      && r.value.useIndex == req.useIndex
  {
    var limit := SearchLimit(req.limit);
    var offset := SearchOffset(req.offset);
    if req.startTime.Some? && req.endTime.Some? && req.startTime.value > req.endTime.value then
      Err(StartAfterEnd)
    else
      Ok(LogQuery(
        TrimSpace(req.traceId),
        TrimSpace(req.spanId),
        ToLower(TrimSpace(req.level)),
        TrimSpace(req.service),
        req.startTime,
        req.endTime,
        TrimSpace(req.message),
        limit,
        offset,
        req.useIndex))
  }

  /**
   * A normalised search is a query the file scan accepts, and normalising its paging a
   * second time changes nothing.
   */
  lemma SearchQueryPagingSettled(req: SearchRequest)
    requires SearchQuery(req).Ok?
    ensures SearchQuery(req).value.limit >= 1 && SearchQuery(req).value.offset >= 0
    ensures SearchLimit(SearchQuery(req).value.limit) == SearchQuery(req).value.limit
    ensures SearchOffset(SearchQuery(req).value.offset) == SearchQuery(req).value.offset
  {
  }

  /** A search with a single time bound, or with equal bounds, is never refused. */
  lemma SearchTimeRangeEdges(req: SearchRequest)
    ensures req.startTime.None? || req.endTime.None? ==> SearchQuery(req).Ok?
    ensures req.startTime.Some? && req.startTime == req.endTime ==> SearchQuery(req).Ok?
  {
  }

  /**
   * The branch of `formatFileSize` for sizes below 1024: the decimal size followed by " B".
   * `None` stands for the larger sizes, printed through floating point.
   */
  function FormatFileSize(size: int): (r: Option<string>)
    ensures r.Some? <==> size < 1024
    ensures r.Some? ==> HasSuffix(r.value, " B") && |r.value| >= 3
  {
    if size < 1024 then Some(IntToString(size) + " B") else None
  }

  /** The number in front of " B" reads back as the size. */
  lemma FormatFileSizeReadsBack(size: Int64)
    requires size < 1024
    ensures ParseInt(FormatFileSize(size).value[..|FormatFileSize(size).value| - 2]) == Some(size)
  {
    var s := IntToString(size);
    assert FormatFileSize(size).value[..|FormatFileSize(size).value| - 2] == s;
    ParseIntOfIntToString(size);
  }
}
