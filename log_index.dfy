/**
 * The aggregator's key/value index. Five buckets map a field value to the place,
 * `fileID:offset`, where the entry carrying it was written. A `Put` overwrites, so the
 * index remembers only the entry filed last under each key. `QueryLogs` asks the index
 * first and falls back to scanning the files.
 */
module LogIndex {
  import opened Basics
  import opened Text
  import opened Numerals
  import opened LogQuery

  /** The five buckets: "trace_id", "span_id", "level", "service" and "time". */
  datatype BucketName = TraceIdBucket | SpanIdBucket | LevelBucket | ServiceBucket | TimeBucket

  /** The database: bucket to (key to stored value). A bucket missing from the map does not exist. */
  type Buckets = map<BucketName, map<string, string>>

  /** The buckets `NewLogAggregator` creates, all empty. */
  function InitialBuckets(): (b: Buckets)
    ensures b.Keys == {TraceIdBucket, SpanIdBucket, LevelBucket, ServiceBucket, TimeBucket}
    ensures forall name :: name in b ==> b[name] == map[]
  {
    map[TraceIdBucket := map[], SpanIdBucket := map[], LevelBucket := map[], ServiceBucket := map[], TimeBucket := map[]]
  }

  /** The stored value `fmt.Sprintf("%s:%d", fileID, offset)`. */
  function FormatLocation(fileId: string, offset: int): string
  {
    fileId + ":" + IntToString(offset)
  }

  /** Where an entry says it was written. */
  function Location(entry: LogEntry): string
  {
    FormatLocation(entry.fileId, entry.offset)
  }

  /**
   * The key under which `addToIndex` files an entry in the bucket `name`, or "" where it
   * files nothing: the bucket's field, with the level in lower case.
   */
  function EntryKey(name: BucketName, entry: LogEntry): (key: string)
    ensures |key| == |match name
      case TraceIdBucket => entry.traceId
      case SpanIdBucket => entry.spanId
      case LevelBucket => entry.level
      case ServiceBucket => entry.service
      case TimeBucket => entry.timestamp|
  {
    match name
    case TraceIdBucket => entry.traceId
    case SpanIdBucket => entry.spanId
    case LevelBucket => ToLower(entry.level)
    case ServiceBucket => entry.service
    case TimeBucket => entry.timestamp
  }

  /** The one `Put` `addToIndex` makes into bucket `name`, when the field is set and the bucket exists. */
  function PutField(buckets: Buckets, name: BucketName, entry: LogEntry): (r: Buckets)
    ensures r.Keys == buckets.Keys
    ensures forall n :: n in buckets && n != name ==> r[n] == buckets[n]
    ensures name in buckets ==>
      r[name] == if EntryKey(name, entry) == "" then buckets[name]
                 else buckets[name][EntryKey(name, entry) := Location(entry)]
  {
    if EntryKey(name, entry) != "" && name in buckets then
      buckets[name := buckets[name][EntryKey(name, entry) := Location(entry)]]
    else buckets
  }

  /**
   * The database after `addToIndex(entry)`: every existing bucket gains the entry's key,
   * mapped to its location, and nothing else moves.
   */
  function Indexed(buckets: Buckets, entry: LogEntry): (r: Buckets)
    ensures r.Keys == buckets.Keys
    ensures forall name :: name in buckets ==>
      r[name] == if EntryKey(name, entry) == "" then buckets[name]
                 else buckets[name][EntryKey(name, entry) := Location(entry)]
  {
    PutField(PutField(PutField(PutField(PutField(buckets, TraceIdBucket, entry), SpanIdBucket, entry),
      LevelBucket, entry), ServiceBucket, entry), TimeBucket, entry)
  }

  /** The database after indexing `entries` one after another. */
  function IndexAll(buckets: Buckets, entries: seq<LogEntry>): Buckets
  {
    if entries == [] then buckets
    else Indexed(IndexAll(buckets, entries[..|entries| - 1]), entries[|entries| - 1])
  }

  /** Indexing never adds or removes a bucket. */
  lemma {:induction false} IndexAllKeepsBuckets(buckets: Buckets, entries: seq<LogEntry>)
    ensures IndexAll(buckets, entries).Keys == buckets.Keys
  {
    if entries != [] {
      IndexAllKeepsBuckets(buckets, entries[..|entries| - 1]);
    }
  }

  /** The position of the last entry filed under `key` in bucket `name`, or -1. */
  function LastWith(entries: seq<LogEntry>, name: BucketName, key: string): (j: int)
    ensures -1 <= j < |entries|
    ensures j >= 0 ==> EntryKey(name, entries[j]) == key
    ensures forall i :: j < i < |entries| ==> EntryKey(name, entries[i]) != key
  {
    if entries == [] then -1
    else if EntryKey(name, entries[|entries| - 1]) == key then |entries| - 1
    else LastWith(entries[..|entries| - 1], name, key)
  }

  /**
   * Last write wins: after indexing `entries`, a key holds the location of the last entry
   * filed under it, and a key no entry was filed under keeps what the database held before.
   */
  lemma {:induction false} LastWriteWins(buckets: Buckets, entries: seq<LogEntry>, name: BucketName, key: string)
    requires name in buckets && key != ""
    ensures name in IndexAll(buckets, entries)
    ensures var j := LastWith(entries, name, key);
      var b := IndexAll(buckets, entries)[name];
      if j >= 0 then key in b && b[key] == Location(entries[j])
      else (key in b <==> key in buckets[name]) && (key in b ==> b[key] == buckets[name][key])
  {
    if entries != [] {
      var init := entries[..|entries| - 1];
      var last := entries[|entries| - 1];
      LastWriteWins(buckets, init, name, key);
      var prev := IndexAll(buckets, init);
      var k := EntryKey(name, last);
      assert IndexAll(buckets, entries)[name]
        == if k == "" then prev[name] else prev[name][k := Location(last)];
      if k != key {
        var j := LastWith(init, name, key);
        assert LastWith(entries, name, key) == j;
        if j >= 0 {
          assert entries[j] == init[j];
        }
      }
    }
  }

  /** `strings.Split(value, ":")` when it yields exactly two parts; `None` for any other count. */
  function SplitColon(value: string): (r: Option<(string, string)>)
    ensures r.Some? ==> value == r.value.0 + ":" + r.value.1 && ':' !in r.value.0 && ':' !in r.value.1
  {
    var i := LastIndexOf(value, ':');
    if i < 0 || ':' in value[..i] then None
    else
      assert value == value[..i] + ":" + value[i + 1..];
      Some((value[..i], value[i + 1..]))
  }

  /** Splitting `a:b` where `b` has no colon gives the two parts back, unless `a` has a colon too. */
  lemma SplitColonOfJoin(a: string, b: string)
    requires ':' !in b
    ensures SplitColon(a + ":" + b) == if ':' in a then None else Some((a, b))
  {
    var value := a + ":" + b;
    var i := LastIndexOf(value, ':');
    assert value[|a|] == ':';
    assert i == |a|;
    assert value[..i] == a;
    assert value[i + 1..] == b;
  }

  /**
   * A stored location reads back as its file and offset exactly when the file id has no
   * colon; a colon in the id makes `Split` find three parts.
   */
  lemma LocationRoundTrip(fileId: string, offset: Int64)
    ensures SplitColon(FormatLocation(fileId, offset)).Some? <==> ':' !in fileId
    ensures ':' !in fileId ==>
      (SplitColon(FormatLocation(fileId, offset)) == Some((fileId, IntToString(offset)))
       && ParseInt(IntToString(offset)) == Some(offset))
  {
    IntToStringHasNoColon(offset);
    SplitColonOfJoin(fileId, IntToString(offset));
    ParseIntOfIntToString(offset);
  }

  /**
   * The bucket and key `queryWithIndex` consults: the trace id, else the span id, else
   * the level in lower case, else the service. With none of them set the code asks for the
   * bucket "", which never exists; that is `None` here.
   */
  function LookupKey(query: LogQuery): (r: Option<(BucketName, string)>)
    ensures r.None? <==> IndexedConditions(query) == 0
    ensures r.Some? ==> r.value.1 != ""
  {
    if query.traceId != "" then Some((TraceIdBucket, query.traceId))
    else if query.spanId != "" then Some((SpanIdBucket, query.spanId))
    else if query.level != "" then Some((LevelBucket, ToLower(query.level)))
    else if query.service != "" then Some((ServiceBucket, query.service))
    else None
  }

  /**
   * For a query the index may answer, an entry is filed under the looked-up key exactly
   * when it passes the query's condition in `matchesQuery`.
   */
  lemma LookupKeyAgreesWithFilter(query: LogQuery, entry: LogEntry, d: Decoders)
    requires CanUseIndex(query)
    ensures LookupKey(query).Some?
    ensures var (name, key) := LookupKey(query).value;
      EntryKey(name, entry) == key <==>
        MatchesQuery(entry, query.(message := "", startTime := None, endTime := None), d)
  {
  }

  /** How an index lookup failed; `QueryLogs` answers every one of them with a file scan. */
  datatype IndexError = NoBucket | NotIndexed | MalformedValue | MalformedOffset | ReadFailed

  /**
   * `queryWithIndex` against the buckets a read transaction sees. `read` stands for
   * `readLogEntry` on the file with that id at that byte offset.
   */
  function QueryWithIndex(query: LogQuery, buckets: Buckets, read: (string, Int64) -> Option<LogEntry>)
    : (r: Result<seq<LogEntry>, IndexError>)
    ensures r.Ok? ==> |r.value| == 1
    ensures r == Err(NoBucket) <==> LookupKey(query).None? || LookupKey(query).value.0 !in buckets
    ensures r.Ok? ==> var (name, key) := LookupKey(query).value;
      name in buckets && key in buckets[name]
  {
    match LookupKey(query)
    case None => Err(NoBucket)
    case Some((name, key)) =>
      if name !in buckets then Err(NoBucket)
      else if key !in buckets[name] then Err(NotIndexed)
      else match SplitColon(buckets[name][key])
        case None => Err(MalformedValue)
        case Some((fileId, digits)) =>
          match ParseInt(digits)
          case None => Err(MalformedOffset)
          case Some(offset) =>
            match read(fileId, offset)
            case None => Err(ReadFailed)
            case Some(entry) => Ok([entry])
  }

  /** Every file id and offset in `entries` can be stored and read back. */
  predicate Locatable(entries: seq<LogEntry>)
  {
    forall i :: 0 <= i < |entries| ==> ':' !in entries[i].fileId && MinInt64 <= entries[i].offset <= MaxInt64
  }

  /**
   * After indexing `entries`, a lookup reads at the location of the last entry filed
   * under the query's key, and returns what is read there and nothing else.
   */
  lemma LookupFindsLastIndexed(buckets: Buckets, entries: seq<LogEntry>, query: LogQuery,
                               read: (string, Int64) -> Option<LogEntry>)
    requires LookupKey(query).Some? && LookupKey(query).value.0 in buckets && Locatable(entries)
    requires LastWith(entries, LookupKey(query).value.0, LookupKey(query).value.1) >= 0
    ensures var e := entries[LastWith(entries, LookupKey(query).value.0, LookupKey(query).value.1)];
      QueryWithIndex(query, IndexAll(buckets, entries), read)
        == if read(e.fileId, e.offset).Some? then Ok([read(e.fileId, e.offset).value]) else Err(ReadFailed)
  {
    var (name, key) := LookupKey(query).value;
    LastWriteWins(buckets, entries, name, key);
    var e := entries[LastWith(entries, name, key)];
    LocationRoundTrip(e.fileId, e.offset);
  }

  /** The index database of the running aggregator. */
  class IndexDb {
    var buckets: Buckets

    /** The five empty buckets of `NewLogAggregator`. */
    constructor()
      ensures buckets == InitialBuckets()
    {
      buckets := InitialBuckets();
    }

    /**
     * `addToIndex`: one `Put` per non-empty field, each into its bucket when that bucket
     * exists, committed together as one update transaction.
     */
    method AddToIndex(entry: LogEntry)
      modifies this
      ensures buckets == Indexed(old(buckets), entry)
    {
      var value := Location(entry);
      var tx := buckets;
      ghost var t0 := tx;
      if entry.traceId != "" && TraceIdBucket in tx {
        tx := tx[TraceIdBucket := tx[TraceIdBucket][entry.traceId := value]];
      }
      assert tx == PutField(t0, TraceIdBucket, entry);
      ghost var t1 := tx;
      if entry.spanId != "" && SpanIdBucket in tx {
        tx := tx[SpanIdBucket := tx[SpanIdBucket][entry.spanId := value]];
      }
      assert tx == PutField(t1, SpanIdBucket, entry);
      ghost var t2 := tx;
      if entry.level != "" && LevelBucket in tx {
        tx := tx[LevelBucket := tx[LevelBucket][ToLower(entry.level) := value]];
      }
      assert tx == PutField(t2, LevelBucket, entry);
      ghost var t3 := tx;
      if entry.service != "" && ServiceBucket in tx {
        tx := tx[ServiceBucket := tx[ServiceBucket][entry.service := value]];
      }
      assert tx == PutField(t3, ServiceBucket, entry);
      ghost var t4 := tx;
      if entry.timestamp != "" && TimeBucket in tx {
        tx := tx[TimeBucket := tx[TimeBucket][entry.timestamp := value]];
      }
      assert tx == PutField(t4, TimeBucket, entry);
      buckets := tx;
    }

    /** `indexWorker` draining the index queue in order: one `addToIndex` per queued entry. */
    method IndexQueued(queue: seq<LogEntry>)
      modifies this
      ensures buckets == IndexAll(old(buckets), queue)
    {
      var i := 0;
      while i < |queue|
        invariant 0 <= i <= |queue|
        invariant buckets == IndexAll(old(buckets), queue[..i])
      {
        assert queue[..i + 1][..i] == queue[..i];
        AddToIndex(queue[i]);
        i := i + 1;
      }
      assert queue[..|queue|] == queue;
    }
  }

  /** The index path of `QueryLogs` is taken and succeeds. */
  predicate IndexAnswers(query: LogQuery, buckets: Buckets, read: (string, Int64) -> Option<LogEntry>)
  {
    query.useIndex && CanUseIndex(query) && QueryWithIndex(query, buckets, read).Ok?
  }

  /**
   * `QueryLogs`: with `UseIndex`, a running aggregator (`index` not null) and a one-condition
   * query, a successful index lookup is the answer, counted as it stands and not paged; on
   * any other path the answer is the file scan.
   */
  method QueryLogs(query: LogQuery, index: IndexDb?, read: (string, Int64) -> Option<LogEntry>,
                   files: Option<seq<Option<seq<string>>>>, d: Decoders)
    returns (r: Result<LogQueryResult, ScanError>)
    requires query.offset >= 0 && query.limit >= 0
    ensures index != null && IndexAnswers(query, index.buckets, read) ==>
      var entries := QueryWithIndex(query, index.buckets, read).value;
      r == Ok(LogQueryResult(entries, |entries|, query.limit, query.offset))
    ensures !(index != null && IndexAnswers(query, index.buckets, read)) ==>
      (r.Err? <==> files.None?)
      && (r.Ok? ==> r.value == LogQueryResult(
            Paginate(AllMatches(files.value, query, d), query.offset, query.limit),
            |AllMatches(files.value, query, d)|, query.limit, query.offset))
  {
    if query.useIndex && index != null && CanUseIndex(query) {
      var found := QueryWithIndex(query, index.buckets, read);
      if found.Ok? {
        return Ok(LogQueryResult(found.value, |found.value|, query.limit, query.offset));
      }
    }
    r := QueryWithFileScan(files, query, d);
  }
}
