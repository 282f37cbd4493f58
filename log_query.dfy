/**
 * Log queries over the aggregated JSON-lines files: the filter every entry is tested
 * against, the rule that decides when the index may answer, and the file scan with
 * its pagination.
 */
module LogQuery {
  import opened Basics
  import opened Text

  /** `LogEntry`, without the free-form `Fields` map. */
  datatype LogEntry = LogEntry(
    timestamp: string,
    level: string,
    message: string,
    traceId: string,
    spanId: string,
    caller: string,
    service: string,
    file: string,
    fileId: string,
    offset: int)

  /**
   * `LogQuery`. A time bound is `None` where Go holds the zero `time.Time`, and is otherwise
   * a point in time in nanoseconds.
   */
  datatype LogQuery = LogQuery(
    traceId: string,
    spanId: string,
    level: string,
    service: string,
    startTime: Option<int>,
    endTime: Option<int>,
    message: string,
    limit: int,
    offset: int,
    useIndex: bool)

  /** `LogQueryResult`. */
  datatype LogQueryResult = LogQueryResult(entries: seq<LogEntry>, total: int, limit: int, offset: int)

  /** The query that asks for nothing in particular. */
  function EmptyQuery(limit: int, offset: int): LogQuery
  {
    LogQuery("", "", "", "", None, None, "", limit, offset, false)
  }

  /**
   * The library code a query leans on: `time.Parse(time.RFC3339, s)` (`None` on a parse
   * error), `regexp.MatchString(pattern, s)` (false for a pattern that does not compile),
   * and `json.Unmarshal` of one line into a `LogEntry` (`None` on malformed JSON).
   */
  datatype Decoders = Decoders(
    parseTime: string -> Option<int>,
    matchRegexp: (string, string) -> bool,
    decodeEntry: string -> Option<LogEntry>)

  /** The time-range part of the filter: with a bound set, the entry's time must parse and lie within it. */
  predicate WithinTimeRange(entry: LogEntry, query: LogQuery, d: Decoders)
  {
    (query.startTime.None? && query.endTime.None?)
    || (d.parseTime(entry.timestamp).Some?
        && (query.startTime.Some? ==> d.parseTime(entry.timestamp).value >= query.startTime.value)
        && (query.endTime.Some? ==> d.parseTime(entry.timestamp).value <= query.endTime.value))
  }

  /**
   * `matchesQuery`: every condition the query sets must hold. Trace, span and service
   * must be equal, the level equal up to case, the message must match the pattern, and
   * the time must lie within the bounds, both inclusive.
   */
  function MatchesQuery(entry: LogEntry, query: LogQuery, d: Decoders): (m: bool)
    ensures m <==>
      (query.traceId == "" || entry.traceId == query.traceId)
      && (query.spanId == "" || entry.spanId == query.spanId)
      && (query.level == "" || EqualFold(entry.level, query.level))
      && (query.service == "" || entry.service == query.service)
      && (query.message == "" || d.matchRegexp(query.message, entry.message))
      && WithinTimeRange(entry, query, d)
  {
    if query.traceId != "" && entry.traceId != query.traceId then false
    else if query.spanId != "" && entry.spanId != query.spanId then false
    else if query.level != "" && !EqualFold(entry.level, query.level) then false
    else if query.service != "" && entry.service != query.service then false
    else if query.message != "" && !d.matchRegexp(query.message, entry.message) then false
    else if query.startTime.Some? || query.endTime.Some? then
      match d.parseTime(entry.timestamp)
      case None => false
      case Some(t) =>
        if query.startTime.Some? && t < query.startTime.value then false
        else if query.endTime.Some? && t > query.endTime.value then false
        else true
    else true
  }

  /** A query that sets no condition accepts every entry, whatever its limit and offset. */
  lemma EmptyQueryMatchesAll(entry: LogEntry, d: Decoders, limit: int, offset: int)
    ensures MatchesQuery(entry, EmptyQuery(limit, offset), d)
  {
  }

  /**
   * With a time bound set, an entry whose time does not parse is rejected, and an entry
   * exactly on a bound is accepted when it passes the other conditions.
   */
  lemma TimeBoundsInclusive(entry: LogEntry, query: LogQuery, d: Decoders)
    ensures (query.startTime.Some? || query.endTime.Some?) && d.parseTime(entry.timestamp).None? ==>
      !MatchesQuery(entry, query, d)
    ensures (query.startTime.Some? && query.endTime.Some?
      && d.parseTime(entry.timestamp) == query.startTime && query.startTime.value <= query.endTime.value)
      ==> WithinTimeRange(entry, query, d)
    ensures (query.endTime.Some? && d.parseTime(entry.timestamp) == query.endTime
      && (query.startTime.Some? ==> query.startTime.value <= query.endTime.value))
      ==> WithinTimeRange(entry, query, d)
  {
  }

  /** The number of the four indexed conditions the query sets. */
  function IndexedConditions(query: LogQuery): (n: nat)
    ensures n <= 4
  {
    (if query.traceId != "" then 1 else 0) + (if query.spanId != "" then 1 else 0)
    + (if query.level != "" then 1 else 0) + (if query.service != "" then 1 else 0)
  }

  /**
   * `canUseIndex`: exactly one of trace, span, level and service is set; the message, the
   * time range and the paging play no part.
   */
  function CanUseIndex(query: LogQuery): (b: bool)
    ensures b <==>
      (query.traceId != "" && query.spanId == "" && query.level == "" && query.service == "")
      || (query.traceId == "" && query.spanId != "" && query.level == "" && query.service == "")
      || (query.traceId == "" && query.spanId == "" && query.level != "" && query.service == "")
      || (query.traceId == "" && query.spanId == "" && query.level == "" && query.service != "")
  {
    IndexedConditions(query) == 1
  }

  /** Changing the message, the time range or the paging never changes whether the index is used. */
  lemma CanUseIndexIgnoresOtherFields(query: LogQuery, message: string, start: Option<int>,
                                      end: Option<int>, limit: int, offset: int)
    ensures CanUseIndex(query.(message := message, startTime := start, endTime := end,
                               limit := limit, offset := offset)) == CanUseIndex(query)
  {
  }

  /**
   * The pagination of `queryWithFileScan`: the window of `limit` entries from `offset`,
   * cut off at the end, empty when `offset` is at or past the end. A negative limit or
   * offset makes the Go slice expression panic.
   */
  function Paginate<T>(all: seq<T>, offset: int, limit: int): (page: seq<T>)
    requires offset >= 0 && limit >= 0
    ensures |page| == if offset >= |all| then 0 else if offset + limit > |all| then |all| - offset else limit
    ensures forall i :: 0 <= i < |page| ==> page[i] == all[offset + i]
  {
    if offset >= |all| then []
    else
      var end := if offset + limit > |all| then |all| else offset + limit;
      all[offset..end]
  }

  /** Two consecutive pages of size `limit` make up the page of size `2 * limit`. */
  lemma ConsecutivePages<T>(all: seq<T>, offset: int, limit: int)
    requires offset >= 0 && limit >= 0
    ensures Paginate(all, offset, limit) + Paginate(all, offset + limit, limit)
      == Paginate(all, offset, 2 * limit)
  {
    var a := Paginate(all, offset, limit);
    var b := Paginate(all, offset + limit, limit);
    var c := Paginate(all, offset, 2 * limit);
    assert |a + b| == |c|;
    forall i | 0 <= i < |c| ensures (a + b)[i] == c[i] {
      if i >= |a| {
        assert (a + b)[i] == b[i - |a|];
      }
    }
  }

  /** The first `limit` matches with offset 0; no page at all with limit 0. */
  lemma PaginateEdges<T>(all: seq<T>, limit: int)
    requires limit >= 0
    ensures limit >= |all| ==> Paginate(all, 0, limit) == all
    ensures Paginate(all, 0, 0) == []
  {
  }

  /** The entries of one file that match: blank lines and lines that do not decode are skipped. */
  function FileMatches(lines: seq<string>, query: LogQuery, d: Decoders): (entries: seq<LogEntry>)
    ensures |entries| <= |lines|
  {
    if lines == [] then []
    else FileMatches(lines[..|lines| - 1], query, d) + LineMatch(lines[|lines| - 1], query, d)
  }

  /** What one line adds: nothing when it is blank, does not decode, or does not match. */
  function LineMatch(line: string, query: LogQuery, d: Decoders): (found: seq<LogEntry>)
    ensures |found| <= 1
    ensures found != [] ==> MatchesQuery(found[0], query, d)
  {
    var trimmed := TrimSpace(line);
    if trimmed == "" then []
    else match d.decodeEntry(trimmed)
      case None => []
      case Some(e) => if MatchesQuery(e, query, d) then [e] else []
  }

  /** Scanning one more line appends what that line contributes. */
  lemma FileMatchesStep(lines: seq<string>, i: int, query: LogQuery, d: Decoders)
    requires 0 <= i < |lines|
    ensures FileMatches(lines[..i + 1], query, d) == FileMatches(lines[..i], query, d) + LineMatch(lines[i], query, d)
  {
    assert lines[..i + 1][..i] == lines[..i];
  }

  /** Every entry taken from a file matches the query. */
  lemma {:induction false} FileMatchesMatch(lines: seq<string>, query: LogQuery, d: Decoders)
    ensures forall e :: e in FileMatches(lines, query, d) ==> MatchesQuery(e, query, d)
  {
    if lines != [] {
      FileMatchesMatch(lines[..|lines| - 1], query, d);
    }
  }

  /**
   * `queryFile`: the lines of one file, or `None` when it cannot be opened or the scanner
   * stops with an error.
   */
  method QueryFile(file: Option<seq<string>>, query: LogQuery, d: Decoders)
    returns (r: Option<seq<LogEntry>>)
    ensures r.None? <==> file.None?
    ensures r.Some? ==> r.value == FileMatches(file.value, query, d)
  {
    if file.None? {
      return None;
    }
    var lines := file.value;
    var entries: seq<LogEntry> := [];
    var i := 0;
    while i < |lines|
      invariant 0 <= i <= |lines|
      invariant entries == FileMatches(lines[..i], query, d)
    {
      FileMatchesStep(lines, i, query, d);
      var found := ScanLine(lines[i], query, d);
      entries := entries + found;
      i := i + 1;
    }
    assert lines[..|lines|] == lines;
    return Some(entries);
  }

  /** One iteration of the scan loop of `queryFile`: the entry on `line`, if it decodes and matches. */
  method ScanLine(line: string, query: LogQuery, d: Decoders) returns (found: seq<LogEntry>)
    ensures found == LineMatch(line, query, d)
  {
    found := [];
    var trimmed := TrimSpace(line);
    if trimmed != "" {
      match d.decodeEntry(trimmed)
      case None =>
      case Some(e) =>
        if MatchesQuery(e, query, d) {
          found := [e];
        }
    }
  }

  /** Every match in the readable files, newest file first; unreadable files contribute nothing. */
  function AllMatches(files: seq<Option<seq<string>>>, query: LogQuery, d: Decoders): seq<LogEntry>
  {
    if files == [] then []
    else
      var last := files[|files| - 1];
      AllMatches(files[..|files| - 1], query, d) + (if last.Some? then FileMatches(last.value, query, d) else [])
  }

  /** Why a file scan failed. */
  datatype ScanError = GlobFailed

  /**
   * `queryWithFileScan`: `files` is what `filepath.Glob` listed, in the newest-first order the
   * sort gives, each as its lines or `None` when unreadable; `None` when the pattern is bad.
   * `Total` counts all matches; the entries are the requested page of them.
   */
  method QueryWithFileScan(files: Option<seq<Option<seq<string>>>>, query: LogQuery, d: Decoders)
    returns (r: Result<LogQueryResult, ScanError>)
    requires query.offset >= 0 && query.limit >= 0
    ensures r.Err? <==> files.None?
    ensures r.Ok? ==> r.value.total == |AllMatches(files.value, query, d)|
    ensures r.Ok? ==> r.value.entries == Paginate(AllMatches(files.value, query, d), query.offset, query.limit)
    ensures r.Ok? ==> r.value.limit == query.limit && r.value.offset == query.offset
  {
    if files.None? {
      return Err(GlobFailed);
    }
    var list := files.value;
    var all: seq<LogEntry> := [];
    var i := 0;
    while i < |list|
      invariant 0 <= i <= |list|
      invariant all == AllMatches(list[..i], query, d)
    {
      assert list[..i + 1][..i] == list[..i];
      var entries := QueryFile(list[i], query, d);
      if entries.Some? {
        all := all + entries.value;
      }
      i := i + 1;
    }
    assert list[..|list|] == list;
    var total := |all|;
    var page: seq<LogEntry>;
    if query.offset >= total {
      page := [];
    } else {
      var end := query.offset + query.limit;
      if end > total {
        end := total;
      }
      page := all[query.offset..end];
    }
    return Ok(LogQueryResult(page, total, query.limit, query.offset));
  }

  /** Every entry a scan returns matches the query. */
  lemma {:induction false} AllMatchesMatch(files: seq<Option<seq<string>>>, query: LogQuery, d: Decoders)
    ensures forall e :: e in AllMatches(files, query, d) ==> MatchesQuery(e, query, d)
  {
    if files != [] {
      AllMatchesMatch(files[..|files| - 1], query, d);
      if files[|files| - 1].Some? {
        FileMatchesMatch(files[|files| - 1].value, query, d);
      }
    }
  }
}
