/**
 * The log viewer's server: paging through one log file with a search filter, the
 * defaults of its query parameters, the per-client rate limit and the cache of file
 * pages. Times are in nanoseconds.
 */
module LogViewer {
  import opened Basics
  import opened Text
  import opened Numerals
  import opened LogQuery
  import opened LogIndex
  import opened WebApi

  // ---------------------------------------------------------------------------
  // Paging through a file
  // ---------------------------------------------------------------------------

  /** The filter of `readFileContent`: the search text occurs in the line, ignoring case. */
  predicate SearchMatches(line: string, search: string)
  {
    search == "" || Contains(ToLower(line), ToLower(search))
  }

  /** An empty search keeps every line, and the case of the line or of the search never matters. */
  lemma SearchIgnoresCase(line: string, search: string, line2: string, search2: string)
    requires EqualFold(line, line2) && EqualFold(search, search2)
    ensures SearchMatches(line, "")
    ensures SearchMatches(line, search) == SearchMatches(line2, search2)
  {
  }

  /** The lines the search keeps, in file order. */
  function MatchingLines(lines: seq<string>, search: string): (m: seq<string>)
    ensures |m| <= |lines|
    ensures forall l :: l in m ==> l in lines && SearchMatches(l, search)
  {
    if lines == [] then []
    else
      var rest := MatchingLines(lines[..|lines| - 1], search);
      var line := lines[|lines| - 1];
      if SearchMatches(line, search) then rest + [line] else rest
  }

  /** With no search text every line is kept. */
  lemma {:induction false} MatchingLinesEmptySearch(lines: seq<string>)
    ensures MatchingLines(lines, "") == lines
  {
    if lines != [] {
      MatchingLinesEmptySearch(lines[..|lines| - 1]);
    }
  }

  function AtLeastZero(x: int): (n: nat)
    ensures n == if x < 0 then 0 else x
  {
    if x < 0 then 0 else x
  }

  /**
   * The page `readFileContent` returns: the matching lines whose position among the
   * matches lies in [offset, offset + limit). A negative offset counts as 0 and a limit
   * of 0 or less gives no lines.
   */
  function ViewPage(lines: seq<string>, limit: int, offset: int, search: string): (page: seq<string>)
    ensures |page| <= AtLeastZero(limit)
    ensures forall l :: l in page ==> l in lines && SearchMatches(l, search)
  {
    Paginate(MatchingLines(lines, search), AtLeastZero(offset), AtLeastZero(limit))
  }

  /** One more element at the end extends the page exactly when it falls inside the window. */
  lemma PaginateSnoc<T>(m: seq<T>, x: T, offset: nat, limit: nat)
    ensures Paginate(m + [x], offset, limit) ==
      if |m| >= offset && |Paginate(m, offset, limit)| < limit then Paginate(m, offset, limit) + [x]
      else Paginate(m, offset, limit)
  {
    var before := Paginate(m, offset, limit);
    var after := Paginate(m + [x], offset, limit);
    if |m| >= offset && |before| < limit {
      assert |after| == |before| + 1;
      forall i | 0 <= i < |after| ensures after[i] == (before + [x])[i] {
        if i < |before| {
          assert after[i] == (m + [x])[offset + i] == m[offset + i];
        }
      }
    } else {
      assert |after| == |before|;
      forall i | 0 <= i < |after| ensures after[i] == before[i] {
        assert after[i] == (m + [x])[offset + i];
      }
    }
  }

  /** What `readFileContent` returns: the page and the number of lines read. */
  datatype ViewContent = ViewContent(lines: seq<string>, total: int)

  /**
   * `readFileContent`: `file` is the file's lines, or `None` when it cannot be opened.
   * The total counts every line read, whatever the search.
   */
  method ReadFileContent(file: Option<seq<string>>, limit: int, offset: int, search: string)
    returns (r: Option<ViewContent>)
    ensures r.None? <==> file.None?
    ensures r.Some? ==> r.value.total == |file.value|
    ensures r.Some? ==> r.value.lines == ViewPage(file.value, limit, offset, search)
  {
    if file.None? {
      return None;
    }
    var source := file.value;
    var lines: seq<string> := [];
    var total := 0;
    var matched := 0;
    var i := 0;
    while i < |source|
      invariant 0 <= i <= |source|
      invariant total == i
      invariant matched == |MatchingLines(source[..i], search)|
      invariant lines == ViewPage(source[..i], limit, offset, search)
    {
      var line := source[i];
      assert source[..i + 1][..i] == source[..i];
      total := total + 1;
      if SearchMatches(line, search) {
        PaginateSnoc(MatchingLines(source[..i], search), line, AtLeastZero(offset), AtLeastZero(limit));
        if matched >= offset && |lines| < limit {
          lines := lines + [line];
        }
        matched := matched + 1;
      }
      i := i + 1;
    }
    assert source[..|source|] == source;
    return Some(ViewContent(lines, total));
  }

  /** A first page as large as the file, without a search, is the whole file. */
  lemma WholeFilePage(lines: seq<string>, limit: int)
    requires limit >= |lines|
    ensures ViewPage(lines, limit, 0, "") == lines
  {
    MatchingLinesEmptySearch(lines);
  }

  // ---------------------------------------------------------------------------
  // Query parameters
  // ---------------------------------------------------------------------------

  const DefaultContentLimit := 1000
  const DefaultErrorLimit := 100

  /** A limit parameter: replaced only by a positive decimal number, otherwise `default`. */
  function PositiveParam(s: string, default: int): (v: int)
    ensures v == default || (ParseInt(s).Some? && ParseInt(s).value > 0 && v == ParseInt(s).value)
    ensures ParseInt(s).Some? && ParseInt(s).value > 0 ==> v == ParseInt(s).value
  {
    if s != "" && ParseInt(s).Some? && ParseInt(s).value > 0 then ParseInt(s).value else default
  }

  /** An offset parameter: replaced only by a non-negative decimal number, otherwise `default`. */
  function NonNegativeParam(s: string, default: int): (v: int)
    ensures v == default || (ParseInt(s).Some? && ParseInt(s).value >= 0 && v == ParseInt(s).value)
    ensures ParseInt(s).Some? && ParseInt(s).value >= 0 ==> v == ParseInt(s).value
  {
    if s != "" && ParseInt(s).Some? && ParseInt(s).value >= 0 then ParseInt(s).value else default
  }

  /** A number written out is read back; an absent or unusable parameter leaves the default. */
  lemma ParamsReadBack(n: Int64, default: int)
    ensures n > 0 ==> PositiveParam(IntToString(n), default) == n
    ensures n <= 0 ==> PositiveParam(IntToString(n), default) == default
    ensures n >= 0 ==> NonNegativeParam(IntToString(n), default) == n
    ensures n < 0 ==> NonNegativeParam(IntToString(n), default) == default
    ensures PositiveParam("", default) == default && NonNegativeParam("", default) == default
  {
    ParseIntOfIntToString(n);
  }

  /** The paging `getLogContent` asks for: limit 1000 and offset 0 unless given. */
  function ContentParams(limitText: string, offsetText: string): (p: (int, int))
    ensures p.0 >= 1 && p.1 >= 0
    ensures p.0 == PositiveParam(limitText, DefaultContentLimit)
    ensures p.1 == NonNegativeParam(offsetText, 0)
  {
    (PositiveParam(limitText, DefaultContentLimit), NonNegativeParam(offsetText, 0))
  }

  /**
   * The query `getErrorLogs` runs: level "error" through the index, limit 100 and offset 0
   * unless given.
   */
  function ErrorLogsQuery(limitText: string, offsetText: string): (q: LogQuery)
    ensures q.level == "error" && q.useIndex
    ensures q.limit == PositiveParam(limitText, DefaultErrorLimit) && q.limit >= 1
    ensures q.offset == NonNegativeParam(offsetText, 0) && q.offset >= 0
  {
    LogQuery("", "", "error", "", None, None, "",
      PositiveParam(limitText, DefaultErrorLimit), NonNegativeParam(offsetText, 0), true)
  }

  /** The error query may use the index, and looks up "error" in the level bucket. */
  lemma ErrorLogsUseLevelIndex(limitText: string, offsetText: string)
    ensures CanUseIndex(ErrorLogsQuery(limitText, offsetText))
    ensures LookupKey(ErrorLogsQuery(limitText, offsetText)) == Some((LevelBucket, "error"))
  {
    assert ToLower("error") == "error";
  }

  // ---------------------------------------------------------------------------
  // Rate limiting
  // ---------------------------------------------------------------------------

  const Minute := 60_000_000_000
  const RequestsPerMinute := 100

  /** The request times younger than a minute at `now`, in their order. */
  function Recent(times: seq<int>, now: int): (r: seq<int>)
    ensures |r| <= |times|
    ensures forall t :: t in r ==> t in times && now - t < Minute
    ensures forall i :: 0 <= i < |times| && now - times[i] < Minute ==> times[i] in r
  {
    if times == [] then []
    else
      var rest := Recent(times[..|times| - 1], now);
      var t := times[|times| - 1];
      assert forall i :: 0 <= i < |times| - 1 ==> times[i] == times[..|times| - 1][i];
      if now - t < Minute then rest + [t] else rest
  }

  /** Pruning at a later time after pruning at an earlier one is pruning at the later time. */
  lemma {:induction false} RecentOfRecent(times: seq<int>, earlier: int, later: int)
    requires earlier <= later
    ensures Recent(Recent(times, earlier), later) == Recent(times, later)
  {
    if times != [] {
      var init := times[..|times| - 1];
      var t := times[|times| - 1];
      RecentOfRecent(init, earlier, later);
      var r := Recent(init, earlier);
      if earlier - t < Minute {
        assert (r + [t])[..|r + [t]| - 1] == r;
      }
    }
  }

  /** A request made now is always young enough to be kept. */
  lemma RecentSnocNow(times: seq<int>, now: int)
    ensures Recent(times + [now], now) == Recent(times, now) + [now]
  {
    assert (times + [now])[..|times + [now]| - 1] == times;
  }

  /**
   * One check of `rateLimitHandler` for one client's recorded times: the old times are
   * dropped; with 100 or more left the request is refused and not recorded, otherwise
   * `now` is appended.
   */
  function Admit(times: seq<int>, now: int): (res: (bool, seq<int>))
    ensures res.0 <==> |Recent(times, now)| < RequestsPerMinute
    ensures res.1 == if res.0 then Recent(times, now) + [now] else Recent(times, now)
  {
    var kept := Recent(times, now);
    if |kept| >= RequestsPerMinute then (false, kept) else (true, kept + [now])
  }

  /** What one client's requests at the times `ts` leave behind: the recorded times and the accepted times. */
  function Replay(ts: seq<int>): (s: (seq<int>, seq<int>))
    ensures |s.1| <= |ts|
  {
    if ts == [] then ([], [])
    else
      var prev := Replay(ts[..|ts| - 1]);
      var step := Admit(prev.0, ts[|ts| - 1]);
      (step.1, if step.0 then prev.1 + [ts[|ts| - 1]] else prev.1)
  }

  predicate NonDecreasing(ts: seq<int>)
  {
    forall i, j :: 0 <= i <= j < |ts| ==> ts[i] <= ts[j]
  }

  /** With requests in time order, the recorded times are the accepted times of the last minute. */
  lemma {:induction false} ReplayRecordsRecentAccepted(ts: seq<int>)
    requires ts != [] && NonDecreasing(ts)
    ensures Replay(ts).0 == Recent(Replay(ts).1, ts[|ts| - 1])
  {
    var init := ts[..|ts| - 1];
    var now := ts[|ts| - 1];
    var prev := Replay(init);
    if init == [] {
      assert Recent([now], now) == [now] by { RecentSnocNow([], now); }
    } else {
      assert NonDecreasing(init);
      ReplayRecordsRecentAccepted(init);
      RecentOfRecent(prev.1, init[|init| - 1], now);
      RecentSnocNow(prev.1, now);
    }
  }

  /** Every accepted request, counting itself, is one of at most 100 accepted within the minute ending with it. */
  predicate WithinRate(accepted: seq<int>)
  {
    forall k :: 0 <= k < |accepted| ==> |Recent(accepted[..k + 1], accepted[k])| <= RequestsPerMinute
  }

  /** Requests in time order: the ones the limiter lets through keep to the rate. */
  lemma {:induction false} AcceptedWithinRate(ts: seq<int>)
    requires NonDecreasing(ts)
    ensures WithinRate(Replay(ts).1)
  {
    if ts != [] {
      var init := ts[..|ts| - 1];
      var now := ts[|ts| - 1];
      var prev := Replay(init);
      assert NonDecreasing(init);
      AcceptedWithinRate(init);
      var acc := Replay(ts).1;
      if Admit(prev.0, now).0 {
        assert acc == prev.1 + [now];
        assert Recent(prev.0, now) == Recent(prev.1, now) by {
          if init != [] {
            ReplayRecordsRecentAccepted(init);
            RecentOfRecent(prev.1, init[|init| - 1], now);
          }
        }
        forall k | 0 <= k < |acc| ensures |Recent(acc[..k + 1], acc[k])| <= RequestsPerMinute {
          if k < |prev.1| {
            assert acc[..k + 1] == prev.1[..k + 1];
          } else {
            assert acc[..k + 1] == prev.1 + [now];
            RecentSnocNow(prev.1, now);
          }
        }
      }
    }
  }

  /** The times a client has on record; none before its first request. */
  function TimesOf(requests: map<string, seq<int>>, client: string): (times: seq<int>)
    ensures client in requests ==> times == requests[client]
    ensures client !in requests ==> times == []
  {
    if client in requests then requests[client] else []
  }

  /** The request times `rateLimitHandler` keeps per client address. */
  class RateLimiter {
    var requests: map<string, seq<int>>

    constructor()
      ensures requests == map[]
    {
      requests := map[];
    }

    /** The pruning loop: the times younger than a minute, in order. */
    static method Prune(times: seq<int>, now: int) returns (valid: seq<int>)
      ensures valid == Recent(times, now)
    {
      valid := [];
      var i := 0;
      while i < |times|
        invariant 0 <= i <= |times|
        invariant valid == Recent(times[..i], now)
      {
        assert times[..i + 1][..i] == times[..i];
        if now - times[i] < Minute {
          valid := valid + [times[i]];
        }
        i := i + 1;
      }
      assert times[..|times|] == times;
    }

    /**
     * The check in front of every handler. Only this client's record changes: it is
     * pruned, and `now` is added when the request is let through.
     */
    method Allow(client: string, now: int) returns (ok: bool)
      modifies this
      ensures ok == Admit(TimesOf(old(requests), client), now).0
      ensures requests == old(requests)[client := Admit(TimesOf(old(requests), client), now).1]
    {
      var m := requests;
      if client in m {
        var valid := Prune(m[client], now);
        m := m[client := valid];
      }
      if |TimesOf(m, client)| >= RequestsPerMinute {
        requests := m;
        return false;
      }
      m := m[client := TimesOf(m, client) + [now]];
      requests := m;
      return true;
    }
  }

  // ---------------------------------------------------------------------------
  // The page cache
  // ---------------------------------------------------------------------------

  /**
   * The cache key of `readLogFile` as written: the path, limit, offset and search joined
   * with ':'.
   */
  function CacheKeyText(path: string, limit: int, offset: int, search: string): (key: string)
    ensures HasPrefix(key, path + ":")
    ensures HasSuffix(key, ":" + search)
  {
    path + ":" + IntToString(limit) + ":" + IntToString(offset) + ":" + search
  }

  /**
   * Two different requests share a key: a search for "s:1000:0:" in file "a", and an
   * empty search in file "a:1000:0:s", a name the traversal check lets through.
   */
  lemma CacheKeyTextCollides()
    ensures NoTraversal("a:1000:0:s")
    ensures CacheKeyText("/logs/a", 1000, 0, "s:1000:0:") == CacheKeyText("/logs/a:1000:0:s", 1000, 0, "")
  {
    assert IntToString(1000) == "1000" by {
      assert NatToString(1) == "1";
      assert NatToString(10) == "10";
      assert NatToString(100) == "100";
    }
    assert IntToString(0) == "0";
    ContainsCharIff("a:1000:0:s", '/');
    forall i | 0 <= i <= |"a:1000:0:s"| - 2 ensures !OccursAt("a:1000:0:s", "..", i) {
      assert "a:1000:0:s"[i..i + 2][0] == "a:1000:0:s"[i];
    }
  }

  /** The four parts of a `readLogFile` request, which the corrected cache keys by. */
  datatype CacheKey = CacheKey(path: string, limit: int, offset: int, search: string)

  /** The text `readLogFile` keys a request by. */
  function KeyText(req: CacheKey): (key: string)
    ensures HasPrefix(key, req.path + ":") && HasSuffix(key, ":" + req.search)
  {
    CacheKeyText(req.path, req.limit, req.offset, req.search)
  }

  /** `fileCacheEntry`. */
  datatype CacheEntry = CacheEntry(content: seq<string>, total: int, lastMod: int, expiry: int)

  const CacheLifetime := 5 * Minute

  /**
   * The hit rule of `readLogFile`: the entry exists, `now` is before its expiry, `Stat`
   * succeeds, and the file's modification time is not after the time recorded.
   */
  predicate CacheHit<K(!new)>(cache: map<K, CacheEntry>, key: K, now: int, modTime: Option<int>)
  {
    key in cache && now < cache[key].expiry && modTime.Some? && modTime.value <= cache[key].lastMod
  }

  /** What `cacheCleanup` leaves: the entries `now` is not after the expiry of. */
  function Expire<K(!new)>(cache: map<K, CacheEntry>, now: int): (c: map<K, CacheEntry>)
    ensures forall k :: k in c <==> k in cache && now <= cache[k].expiry
    ensures forall k :: k in c ==> c[k] == cache[k]
  {
    map k | k in cache && now <= cache[k].expiry :: cache[k]
  }

  /**
   * As written, once the page of one request is cached, a different request whose key
   * text collides with it hits and is served that page.
   */
  lemma CollidingRequestServedOtherPage(cache: map<string, CacheEntry>, e: CacheEntry, now: int, modTime: int)
    requires now < e.expiry && modTime <= e.lastMod
    ensures var first := CacheKey("/logs/a", 1000, 0, "s:1000:0:");
      var second := CacheKey("/logs/a:1000:0:s", 1000, 0, "");
      first != second && NoTraversal("a:1000:0:s")
      && CacheHit(cache[KeyText(first) := e], KeyText(second), now, Some(modTime))
      && cache[KeyText(first) := e][KeyText(second)] == e
  {
    CacheKeyTextCollides();
  }

  /**
   * With the cache keyed by the four parts themselves, storing the page of one request
   * changes neither whether another request hits nor what it is served.
   */
  lemma StoreServesOnlyItsRequest(cache: map<CacheKey, CacheEntry>, a: CacheKey, b: CacheKey,
                                  e: CacheEntry, now: int, modTime: Option<int>)
    requires a != b
    ensures CacheHit(cache[a := e], b, now, modTime) <==> CacheHit(cache, b, now, modTime)
    ensures CacheHit(cache[a := e], b, now, modTime) ==> cache[a := e][b] == cache[b]
  {
  }

  /** Cleaning up never removes an entry that would still be a hit at that time or later. */
  lemma CleanupKeepsHits<K(!new)>(cache: map<K, CacheEntry>, key: K, now: int, later: int, modTime: Option<int>)
    requires now <= later
    ensures CacheHit(cache, key, later, modTime) ==> CacheHit(Expire(cache, now), key, later, modTime)
    ensures CacheHit(Expire(cache, now), key, later, modTime) ==> CacheHit(cache, key, later, modTime)
  {
  }

  /** A page for a request: at most `limit` lines, each matching the search. */
  predicate PageFits(req: CacheKey, lines: seq<string>)
  {
    |lines| <= AtLeastZero(req.limit) && forall l :: l in lines ==> SearchMatches(l, req.search)
  }

  /** Every cached page is the page of the request recorded for its key, whose key text is that key. */
  predicate PagesOfRequests(cache: map<string, CacheEntry>, storedBy: map<string, CacheKey>)
  {
    storedBy.Keys == cache.Keys
    && forall k :: k in cache ==> KeyText(storedBy[k]) == k && PageFits(storedBy[k], cache[k].content)
  }

  /** Dropping expired entries, and their requests, keeps every remaining page that of its request. */
  lemma ExpireKeepsPages(cache: map<string, CacheEntry>, storedBy: map<string, CacheKey>, now: int)
    requires PagesOfRequests(cache, storedBy)
    ensures PagesOfRequests(Expire(cache, now), map k | k in Expire(cache, now) :: storedBy[k])
  {
  }

  /** Why `getLogContent` failed. */
  datatype ViewError = InvalidName | FileUnreadable

  /** What `getLogContent` answers: the page, the line count, and the paging used. */
  datatype ContentPage = ContentPage(content: seq<string>, total: int, limit: int, offset: int)

  /** The parts of `WebServer` the handlers modelled here share. */
  class WebServer {
    const logDir: string
    var fileCache: map<string, CacheEntry>
    /** The request whose page each cached entry holds. */
    ghost var storedBy: map<string, CacheKey>

    /** Every cached page is the page of a request whose key text is its key. */
    ghost predicate Valid()
      reads this
    {
      PagesOfRequests(fileCache, storedBy)
    }

    constructor(logDir: string)
      ensures this.logDir == logDir && fileCache == map[] && Valid()
    {
      this.logDir := logDir;
      fileCache := map[];
      storedBy := map[];
    }

    /**
     * `readLogFile`. `modTime` is what `Stat` reports before the read (`None` on an error),
     * `file` the file's lines, and `storedModTime` what `Stat` reports after the read.
     * A hit answers from the cache, with the page of the request that stored the key; a
     * miss reads the file and caches the answer for five minutes; a failed read caches nothing.
     */
    method ReadLogFile(path: string, limit: int, offset: int, search: string,
                       now: int, modTime: Option<int>, file: Option<seq<string>>, storedModTime: int)
      returns (r: Option<ViewContent>)
      requires Valid()
      modifies this
      ensures Valid()
      ensures var key := CacheKeyText(path, limit, offset, search);
        CacheHit(old(fileCache), key, now, modTime) ==>
          r == Some(ViewContent(old(fileCache)[key].content, old(fileCache)[key].total))
          && fileCache == old(fileCache) && storedBy == old(storedBy)
          && KeyText(storedBy[key]) == key && PageFits(storedBy[key], r.value.lines)
      ensures var key := CacheKeyText(path, limit, offset, search);
        !CacheHit(old(fileCache), key, now, modTime) && file.None? ==>
          r.None? && fileCache == old(fileCache) && storedBy == old(storedBy)
      ensures var key := CacheKeyText(path, limit, offset, search);
        !CacheHit(old(fileCache), key, now, modTime) && file.Some? ==>
          r == Some(ViewContent(ViewPage(file.value, limit, offset, search), |file.value|))
          && fileCache == old(fileCache)[key := CacheEntry(r.value.lines, r.value.total, storedModTime, now + CacheLifetime)]
          && storedBy == old(storedBy)[key := CacheKey(path, limit, offset, search)]
      ensures var key := CacheKeyText(path, limit, offset, search);
        r.Some? && (key in old(storedBy) ==> old(storedBy)[key] == CacheKey(path, limit, offset, search)) ==>
          PageFits(CacheKey(path, limit, offset, search), r.value.lines)
    {
      var key := CacheKeyText(path, limit, offset, search);
      if key in fileCache && now < fileCache[key].expiry {
        if modTime.Some? && modTime.value <= fileCache[key].lastMod {
          return Some(ViewContent(fileCache[key].content, fileCache[key].total));
        }
      }
      r := ReadFileContent(file, limit, offset, search);
      if r.None? {
        return;
      }
      fileCache := fileCache[key := CacheEntry(r.value.lines, r.value.total, storedModTime, now + CacheLifetime)];
      storedBy := storedBy[key := CacheKey(path, limit, offset, search)];
    }

    /** `cacheCleanup`, one tick: the entries `now` is after the expiry of are deleted. */
    method CacheCleanup(now: int)
      requires Valid()
      modifies this
      ensures Valid()
      ensures fileCache == Expire(old(fileCache), now)
    {
      var cache := DeleteExpired(fileCache, now);
      ExpireKeepsPages(fileCache, storedBy, now);
      storedBy := map k | k in cache :: storedBy[k];
      fileCache := cache;
    }

    /** The loop of `cacheCleanup`: every key whose entry `now` is past the expiry of is deleted. */
    static method DeleteExpired(all: map<string, CacheEntry>, now: int) returns (cache: map<string, CacheEntry>)
      ensures cache == Expire(all, now)
    {
      cache := all;
      var keys := all.Keys;
      while keys != {}
        invariant keys <= all.Keys
        invariant forall k :: k in cache <==> k in all && (k in keys || now <= all[k].expiry)
        invariant forall k :: k in cache ==> cache[k] == all[k]
        decreases keys
      {
        var k :| k in keys;
        if now > all[k].expiry {
          cache := cache - {k};
        }
        keys := keys - {k};
      }
      assert cache == Expire(all, now);
    }

    /**
     * `getLogContent`: a name with ".." or '/' is refused before anything else; otherwise
     * the page the parameters ask for, through the cache. The page fits the request unless
     * its key text was cached by another request.
     */
    method GetLogContent(name: string, limitText: string, offsetText: string, search: string,
                         now: int, modTime: Option<int>, file: Option<seq<string>>, storedModTime: int)
      returns (r: Result<ContentPage, ViewError>)
      requires Valid()
      modifies this
      ensures Valid()
      ensures !NoTraversal(name) ==> r == Err(InvalidName) && fileCache == old(fileCache)
      ensures r.Ok? ==>
        NoTraversal(name)
        && r.value.limit == PositiveParam(limitText, DefaultContentLimit)
        && r.value.offset == NonNegativeParam(offsetText, 0)
      ensures var req := CacheKey(logDir + "/" + name, PositiveParam(limitText, DefaultContentLimit),
                                  NonNegativeParam(offsetText, 0), search);
        r.Ok? && (KeyText(req) in old(storedBy) ==> old(storedBy)[KeyText(req)] == req) ==>
          |r.value.content| <= r.value.limit
          && (forall l :: l in r.value.content ==> SearchMatches(l, search))
      ensures r == Err(FileUnreadable) ==> fileCache == old(fileCache)
      ensures var limit := PositiveParam(limitText, DefaultContentLimit);
        var offset := NonNegativeParam(offsetText, 0);
        var key := CacheKeyText(logDir + "/" + name, limit, offset, search);
        NoTraversal(name) ==>
          (CacheHit(old(fileCache), key, now, modTime) ==> fileCache == old(fileCache))
          && (!CacheHit(old(fileCache), key, now, modTime) && file.Some? ==>
                fileCache == old(fileCache)[key := CacheEntry(ViewPage(file.value, limit, offset, search), |file.value|,
                                                              storedModTime, now + CacheLifetime)])
          && (r.Ok? <==> CacheHit(old(fileCache), key, now, modTime) || file.Some?)
          && (CacheHit(old(fileCache), key, now, modTime) ==>
                r == Ok(ContentPage(old(fileCache)[key].content, old(fileCache)[key].total, limit, offset)))
          && (!CacheHit(old(fileCache), key, now, modTime) && file.Some? ==>
                r == Ok(ContentPage(ViewPage(file.value, limit, offset, search), |file.value|, limit, offset)))
    {
      if Contains(name, "..") || Contains(name, "/") {
        return Err(InvalidName);
      }
      var path := logDir + "/" + name;
      var params := ContentParams(limitText, offsetText);
      var content := ReadLogFile(path, params.0, params.1, search, now, modTime, file, storedModTime);
      if content.None? {
        return Err(FileUnreadable);
      }
      return Ok(ContentPage(content.value.lines, content.value.total, params.0, params.1));
    }
  }
}
