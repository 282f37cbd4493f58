/**
 * The log aggregator: entries are stamped with the current file and offset, buffered, and
 * written out a batch at a time as JSON lines; each written entry is queued for the index.
 * A file holds the lines appended to it, and the byte offset of a line is the file's size
 * when it was opened plus the lengths of the lines before it.
 */
module Aggregator {
  import opened Basics
  import opened Text
  import opened Numerals
  import opened LogQuery
  import opened LogIndex

  /** The length of an entry's line: its `json.Marshal` encoding, of length `jsonLength(e)`, and a newline. */
  function LineLength(jsonLength: LogEntry -> nat, e: LogEntry): (n: nat)
    ensures n >= 1
  {
    jsonLength(e) + 1
  }

  /** The bytes the lines of `entries` take up. */
  function TotalLength(jsonLength: LogEntry -> nat, entries: seq<LogEntry>): (n: nat)
    ensures n >= |entries|
  {
    if entries == [] then 0 else LineLength(jsonLength, entries[0]) + TotalLength(jsonLength, entries[1..])
  }

  /** The lines of `a + b` take up the bytes of both. */
  lemma {:induction false} TotalLengthAppend(jsonLength: LogEntry -> nat, a: seq<LogEntry>, b: seq<LogEntry>)
    ensures TotalLength(jsonLength, a + b) == TotalLength(jsonLength, a) + TotalLength(jsonLength, b)
  {
    if a == [] {
      assert a + b == b;
    } else {
      assert (a + b)[1..] == a[1..] + b;
      TotalLengthAppend(jsonLength, a[1..], b);
    }
  }

  /** Every entry of `lines`, written from byte `start` on, records the offset its own line starts at. */
  predicate OffsetsAccurate(jsonLength: LogEntry -> nat, lines: seq<LogEntry>, start: int)
    decreases |lines|
  {
    lines == [] || (lines[0].offset == start
      && OffsetsAccurate(jsonLength, lines[1..], start + LineLength(jsonLength, lines[0])))
  }

  /** The lines before entry `k` are the first line and the lines of the rest before it. */
  lemma PrefixLengthShift(jsonLength: LogEntry -> nat, lines: seq<LogEntry>, k: int)
    requires 1 <= k <= |lines|
    ensures TotalLength(jsonLength, lines[..k]) == LineLength(jsonLength, lines[0]) + TotalLength(jsonLength, lines[1..][..k - 1])
  {
    assert lines[..k][1..] == lines[1..][..k - 1];
  }

  /** Accurate offsets are the running sums of the line lengths before each entry. */
  lemma {:induction false} OffsetsAccurateIff(jsonLength: LogEntry -> nat, lines: seq<LogEntry>, start: int)
    ensures OffsetsAccurate(jsonLength, lines, start) <==>
      forall k :: 0 <= k < |lines| ==> lines[k].offset == start + TotalLength(jsonLength, lines[..k])
    decreases |lines|
  {
    if lines != [] {
      var rest := lines[1..];
      var next := start + LineLength(jsonLength, lines[0]);
      OffsetsAccurateIff(jsonLength, rest, next);
      assert lines[..0] == [];
      forall k | 1 <= k < |lines|
        ensures start + TotalLength(jsonLength, lines[..k]) == next + TotalLength(jsonLength, rest[..k - 1])
        ensures lines[k] == rest[k - 1]
      {
        PrefixLengthShift(jsonLength, lines, k);
      }
      if forall k :: 0 <= k < |lines| ==> lines[k].offset == start + TotalLength(jsonLength, lines[..k]) {
        forall k | 0 <= k < |rest| ensures rest[k].offset == next + TotalLength(jsonLength, rest[..k]) {
          assert rest[k] == lines[k + 1];
        }
      }
    }
  }

  /** Lines that are accurate on their own stay accurate behind accurate lines. */
  lemma {:induction false} AccurateConcat(jsonLength: LogEntry -> nat, lines: seq<LogEntry>, more: seq<LogEntry>, start: int)
    requires OffsetsAccurate(jsonLength, lines, start)
    requires OffsetsAccurate(jsonLength, more, start + TotalLength(jsonLength, lines))
    ensures OffsetsAccurate(jsonLength, lines + more, start)
    decreases |lines|
  {
    if lines == [] {
      assert lines + more == more;
    } else {
      assert (lines + more)[1..] == lines[1..] + more;
      AccurateConcat(jsonLength, lines[1..], more, start + LineLength(jsonLength, lines[0]));
    }
  }

  /**
   * `readLogEntry` on an aggregated file whose lines, from byte `start` on, are `lines`:
   * the entry of the line that begins at `offset`, if one does.
   */
  function EntryAt(jsonLength: LogEntry -> nat, lines: seq<LogEntry>, start: int, offset: int): (r: Option<LogEntry>)
    ensures r.Some? ==> r.value in lines
    decreases |lines|
  {
    if lines == [] then None
    else if offset == start then Some(lines[0])
    else EntryAt(jsonLength, lines[1..], start + LineLength(jsonLength, lines[0]), offset)
  }

  /** Reading at the offset an accurately stamped entry records gives back that entry. */
  lemma {:induction false} ReadBack(jsonLength: LogEntry -> nat, lines: seq<LogEntry>, start: int, k: int)
    requires OffsetsAccurate(jsonLength, lines, start) && 0 <= k < |lines|
    ensures EntryAt(jsonLength, lines, start, lines[k].offset) == Some(lines[k])
    decreases k
  {
    if k > 0 {
      var next := start + LineLength(jsonLength, lines[0]);
      AccurateOffsetsGrow(jsonLength, lines[1..], next, k - 1);
      assert lines[1..][k - 1] == lines[k];
      ReadBack(jsonLength, lines[1..], next, k - 1);
    }
  }

  /** Accurate offsets never fall below the start. */
  lemma {:induction false} AccurateOffsetsGrow(jsonLength: LogEntry -> nat, lines: seq<LogEntry>, start: int, k: int)
    requires OffsetsAccurate(jsonLength, lines, start) && 0 <= k < |lines|
    ensures lines[k].offset >= start
    decreases k
  {
    if k > 0 {
      AccurateOffsetsGrow(jsonLength, lines[1..], start + LineLength(jsonLength, lines[0]), k - 1);
      assert lines[1..][k - 1] == lines[k];
    }
  }

  /**
   * The lines a flush writes when each entry is stamped, just before it is written, with
   * the offset its line starts at; writing begins at byte `offset`.
   */
  function StampedAtLineStarts(jsonLength: LogEntry -> nat, batch: seq<LogEntry>, offset: int): (r: seq<LogEntry>)
    ensures |r| == |batch|
    ensures forall k :: 0 <= k < |r| ==> r[k] == batch[k].(offset := r[k].offset)
    ensures OffsetsAccurate(jsonLength, r, offset)
  {
    if batch == [] then []
    else
      var p := StampedAtLineStarts(jsonLength, batch[..|batch| - 1], offset);
      var e := batch[|batch| - 1].(offset := offset + TotalLength(jsonLength, p));
      AccurateConcat(jsonLength, p, [e], offset);
      p + [e]
  }

  /** Stamping one more entry appends it, stamped with the end of the lines before it. */
  lemma StampedSnoc(jsonLength: LogEntry -> nat, batch: seq<LogEntry>, i: int, start: int,
                    written: seq<LogEntry>, offset: int)
    requires 0 <= i < |batch|
    requires written == StampedAtLineStarts(jsonLength, batch[..i], start)
    requires offset == start + TotalLength(jsonLength, written)
    ensures written + [batch[i].(offset := offset)] == StampedAtLineStarts(jsonLength, batch[..i + 1], start)
    ensures offset + LineLength(jsonLength, batch[i].(offset := offset))
      == start + TotalLength(jsonLength, written + [batch[i].(offset := offset)])
  {
    assert batch[..i + 1][..i] == batch[..i];
    TotalLengthAppend(jsonLength, written, [batch[i].(offset := offset)]);
  }

  /**
   * The lines `flushBatch` writes as the code stands: the buffered entries unchanged, and
   * since `WriteLog` stamps every entry with `currentOffset` and only a flush advances it,
   * every entry of one batch records the offset of the batch's first line.
   */
  function FlushedAsWritten(batch: seq<LogEntry>, fileId: string, offset: int): (lines: seq<LogEntry>)
    ensures |lines| == |batch|
    ensures forall k :: 0 <= k < |lines| ==> lines[k].offset == offset && lines[k].fileId == fileId
  {
    seq(|batch|, k requires 0 <= k < |batch| => batch[k].(fileId := fileId, offset := offset))
  }

  /** A buffer whose entries all carry the file id and the offset is what a flush writes of it, unchanged. */
  lemma BufferFlushedAsWritten(batch: seq<LogEntry>, fileId: string, offset: int)
    requires forall k :: 0 <= k < |batch| ==> batch[k].fileId == fileId && batch[k].offset == offset
    ensures FlushedAsWritten(batch, fileId, offset) == batch
  {
  }

  /**
   * As written, a batch of two or more entries is stamped inaccurately, and reading at the
   * offset the second entry records gives the first entry.
   */
  lemma FlushedAsWrittenMisplaces(jsonLength: LogEntry -> nat, batch: seq<LogEntry>, fileId: string, start: int)
    requires |batch| >= 2
    ensures var lines := FlushedAsWritten(batch, fileId, start);
      !OffsetsAccurate(jsonLength, lines, start)
      && EntryAt(jsonLength, lines, start, lines[1].offset) == Some(lines[0])
  {
    var lines := FlushedAsWritten(batch, fileId, start);
    assert lines[1..][0] == lines[1];
  }

  /**
   * Every entry of `lines`, written from byte `start` on, records an offset no smaller than
   * `low` and no greater than the start of its own line.
   */
  predicate OffsetsNotPast(jsonLength: LogEntry -> nat, lines: seq<LogEntry>, low: int, start: int)
    decreases |lines|
  {
    lines == [] || (low <= lines[0].offset <= start
      && OffsetsNotPast(jsonLength, lines[1..], low, start + LineLength(jsonLength, lines[0])))
  }

  /** Bounded offsets are bounded by the start plus the lengths of the lines before each entry. */
  lemma {:induction false} OffsetsNotPastAt(jsonLength: LogEntry -> nat, lines: seq<LogEntry>, low: int, start: int, k: int)
    requires OffsetsNotPast(jsonLength, lines, low, start) && 0 <= k < |lines|
    ensures low <= lines[k].offset <= start + TotalLength(jsonLength, lines[..k])
    decreases k
  {
    if k == 0 {
      assert lines[..0] == [];
    } else {
      var next := start + LineLength(jsonLength, lines[0]);
      OffsetsNotPastAt(jsonLength, lines[1..], low, next, k - 1);
      assert lines[1..][k - 1] == lines[k];
      assert lines[..k][1..] == lines[1..][..k - 1];
    }
  }

  /** Lines with bounded offsets stay bounded behind bounded lines. */
  lemma {:induction false} NotPastConcat(jsonLength: LogEntry -> nat, lines: seq<LogEntry>, more: seq<LogEntry>,
                                         low: int, start: int)
    requires OffsetsNotPast(jsonLength, lines, low, start)
    requires OffsetsNotPast(jsonLength, more, low, start + TotalLength(jsonLength, lines))
    ensures OffsetsNotPast(jsonLength, lines + more, low, start)
    decreases |lines|
  {
    if lines == [] {
      assert lines + more == more;
    } else {
      assert (lines + more)[1..] == lines[1..] + more;
      NotPastConcat(jsonLength, lines[1..], more, low, start + LineLength(jsonLength, lines[0]));
    }
  }

  /** A batch whose entries all record one offset, at or before where it is written, is bounded by it. */
  lemma {:induction false} OneOffsetNotPast(jsonLength: LogEntry -> nat, batch: seq<LogEntry>, offset: int,
                                            low: int, start: int)
    requires low <= offset <= start
    requires forall k :: 0 <= k < |batch| ==> batch[k].offset == offset
    ensures OffsetsNotPast(jsonLength, batch, low, start)
    decreases |batch|
  {
    if batch != [] {
      OneOffsetNotPast(jsonLength, batch[1..], offset, low, start + LineLength(jsonLength, batch[0]));
    }
  }

  /** Accurate offsets are bounded by the line starts, from the first one on. */
  lemma {:induction false} AccurateNotPast(jsonLength: LogEntry -> nat, lines: seq<LogEntry>, low: int, start: int)
    requires low <= start && OffsetsAccurate(jsonLength, lines, start)
    ensures OffsetsNotPast(jsonLength, lines, low, start)
    decreases |lines|
  {
    if lines != [] {
      AccurateNotPast(jsonLength, lines[1..], low, start + LineLength(jsonLength, lines[0]));
    }
  }

  /**
   * The state of the current file: it started at `fileStart`, `end` is the offset past its
   * last line, no line records an offset before the start or past its own line, and every
   * line belongs to `fileId`.
   */
  predicate FileCoherent(jsonLength: LogEntry -> nat, lines: seq<LogEntry>, fileId: string, fileStart: int, end: int)
  {
    fileStart >= 0 && end == fileStart + TotalLength(jsonLength, lines)
    && OffsetsNotPast(jsonLength, lines, fileStart, fileStart)
    && forall i :: 0 <= i < |lines| ==> lines[i].fileId == fileId
  }

  /** Lines of one file followed by more lines of it are all of that file. */
  lemma ConcatInFile(lines: seq<LogEntry>, more: seq<LogEntry>, fileId: string)
    requires forall i :: 0 <= i < |lines| ==> lines[i].fileId == fileId
    requires forall i :: 0 <= i < |more| ==> more[i].fileId == fileId
    ensures forall i :: 0 <= i < |lines + more| ==> (lines + more)[i].fileId == fileId
  {
  }

  /** Lines of a coherent file followed by bounded lines are bounded, and take up the bytes of both. */
  lemma AppendNotPast(jsonLength: LogEntry -> nat, lines: seq<LogEntry>, fileId: string, fileStart: int, end: int,
                      more: seq<LogEntry>)
    requires FileCoherent(jsonLength, lines, fileId, fileStart, end)
    requires OffsetsNotPast(jsonLength, more, fileStart, end)
    ensures OffsetsNotPast(jsonLength, lines + more, fileStart, fileStart)
    ensures end + TotalLength(jsonLength, more) == fileStart + TotalLength(jsonLength, lines + more)
  {
    NotPastConcat(jsonLength, lines, more, fileStart, fileStart);
    TotalLengthAppend(jsonLength, lines, more);
  }

  /** Writing a buffer whose entries all record the file and its end, unchanged, keeps the file coherent. */
  lemma AppendAsWritten(jsonLength: LogEntry -> nat, lines: seq<LogEntry>, fileId: string, fileStart: int, end: int,
                        batch: seq<LogEntry>)
    requires FileCoherent(jsonLength, lines, fileId, fileStart, end)
    requires forall i :: 0 <= i < |batch| ==> batch[i].fileId == fileId && batch[i].offset == end
    ensures FileCoherent(jsonLength, lines + batch, fileId, fileStart, end + TotalLength(jsonLength, batch))
  {
    ConcatInFile(lines, batch, fileId);
    OneOffsetNotPast(jsonLength, batch, end, fileStart, end);
    AppendNotPast(jsonLength, lines, fileId, fileStart, end, batch);
  }

  /** Writing a buffer of the file's entries stamped at their line starts keeps the file coherent. */
  lemma AppendStamped(jsonLength: LogEntry -> nat, lines: seq<LogEntry>, fileId: string, fileStart: int, end: int,
                      batch: seq<LogEntry>, written: seq<LogEntry>)
    requires FileCoherent(jsonLength, lines, fileId, fileStart, end)
    requires forall i :: 0 <= i < |batch| ==> batch[i].fileId == fileId
    requires written == StampedAtLineStarts(jsonLength, batch, end)
    ensures FileCoherent(jsonLength, lines + written, fileId, fileStart, end + TotalLength(jsonLength, written))
  {
    forall i | 0 <= i < |written| ensures written[i].fileId == fileId {
      assert written[i] == batch[i].(offset := written[i].offset);
    }
    ConcatInFile(lines, written, fileId);
    AccurateNotPast(jsonLength, written, fileStart, end);
    AppendNotPast(jsonLength, lines, fileId, fileStart, end, written);
  }

  /** One more line adds its length to the bytes of the lines before it. */
  lemma TotalLengthStep(jsonLength: LogEntry -> nat, batch: seq<LogEntry>, i: int)
    requires 0 <= i < |batch|
    ensures TotalLength(jsonLength, batch[..i + 1]) == TotalLength(jsonLength, batch[..i]) + LineLength(jsonLength, batch[i])
  {
    assert batch[..i + 1] == batch[..i] + [batch[i]];
    TotalLengthAppend(jsonLength, batch[..i], [batch[i]]);
  }

  /** The bytes `bufio.NewWriterSize(file, 32*1024)` holds before it has to write to the file. */
  const WriterBufferSize := 32 * 1024

  /**
   * How many lines from the front of `batch` a `bufio.Writer` with `room` free bytes
   * takes in before its file is needed: each `Write` of a line that fits is only copied,
   * and the first line that does not fit goes to the file.
   */
  function AcceptedPrefix(jsonLength: LogEntry -> nat, batch: seq<LogEntry>, room: int): (n: nat)
    ensures n <= |batch|
  {
    if batch == [] || LineLength(jsonLength, batch[0]) > room then 0
    else 1 + AcceptedPrefix(jsonLength, batch[1..], room - LineLength(jsonLength, batch[0]))
  }

  /** `AcceptedPrefix` is the longest prefix whose lines fit in the room. */
  lemma {:induction false} AcceptedPrefixLongest(jsonLength: LogEntry -> nat, batch: seq<LogEntry>, room: int)
    ensures var n := AcceptedPrefix(jsonLength, batch, room);
      n > 0 ==> TotalLength(jsonLength, batch[..n]) <= room
    ensures var n := AcceptedPrefix(jsonLength, batch, room);
      n < |batch| ==> TotalLength(jsonLength, batch[..n + 1]) > room
    decreases |batch|
  {
    if batch != [] && LineLength(jsonLength, batch[0]) <= room {
      var rest := room - LineLength(jsonLength, batch[0]);
      var m := AcceptedPrefix(jsonLength, batch[1..], rest);
      AcceptedPrefixLongest(jsonLength, batch[1..], rest);
      assert batch[..m + 1][1..] == batch[1..][..m];
      if m < |batch[1..]| {
        assert batch[..m + 2][1..] == batch[1..][..m + 1];
      }
    } else if batch != [] {
      assert batch[..1][1..] == [];
    }
  }

  /**
   * How many lines of a batch `flushBatch` gets past `writer.Write`: all of them while the
   * file is open; on a closed file, those that fit in the writer's buffer, and none once
   * the writer holds an error, which `bufio.Writer` returns from every later call.
   */
  function Accepted(jsonLength: LogEntry -> nat, batch: seq<LogEntry>, fileOpen: bool, writerFailed: bool): (n: nat)
    ensures n <= |batch|
    ensures fileOpen ==> n == |batch|
    ensures !fileOpen && writerFailed ==> n == 0
  {
    if fileOpen then |batch|
    else AcceptedPrefix(jsonLength, batch, if writerFailed then 0 else WriterBufferSize)
  }

  /** One step of the writer's room: a line that fits is taken in, and the rest goes on from there. */
  lemma AcceptedPrefixStep(jsonLength: LogEntry -> nat, batch: seq<LogEntry>, i: int, room: int)
    requires 0 <= i < |batch|
    ensures LineLength(jsonLength, batch[i]) <= room ==>
      AcceptedPrefix(jsonLength, batch[i..], room)
        == 1 + AcceptedPrefix(jsonLength, batch[i + 1..], room - LineLength(jsonLength, batch[i]))
    ensures LineLength(jsonLength, batch[i]) > room ==> AcceptedPrefix(jsonLength, batch[i..], room) == 0
  {
    assert batch[i..][0] == batch[i];
    assert batch[i..][1..] == batch[i + 1..];
  }

  /**
   * The write loop of `flushBatch` as written: each entry is written as it is, the offset
   * moves past its line, and the entry is queued for the index. While the file is open
   * every write goes through; on a closed file the loop stops at the first line that does
   * not fit in the `room` the writer has left. Returns the queued entries and the new offset.
   */
  method WriteLines(jsonLength: LogEntry -> nat, batch: seq<LogEntry>, start: int, fileOpen: bool, room: int)
    returns (queued: seq<LogEntry>, offset: int)
    ensures fileOpen ==> queued == batch
    ensures !fileOpen ==> queued == batch[..AcceptedPrefix(jsonLength, batch, room)]
    ensures offset == start + TotalLength(jsonLength, queued)
  {
    queued := [];
    offset := start;
    var free := room;
    var i := 0;
    while i < |batch| && (fileOpen || LineLength(jsonLength, batch[i]) <= free)
      invariant 0 <= i <= |batch|
      invariant queued == batch[..i]
      invariant offset == start + TotalLength(jsonLength, batch[..i])
      invariant !fileOpen ==> AcceptedPrefix(jsonLength, batch, room) == i + AcceptedPrefix(jsonLength, batch[i..], free)
    {
      TotalLengthStep(jsonLength, batch, i);
      AcceptedPrefixStep(jsonLength, batch, i, free);
      offset := offset + LineLength(jsonLength, batch[i]);
      free := free - LineLength(jsonLength, batch[i]);
      queued := queued + [batch[i]];
      i := i + 1;
    }
    if i < |batch| {
      AcceptedPrefixStep(jsonLength, batch, i, free);
    }
    assert batch[..|batch|] == batch;
  }

  /**
   * The write loop corrected: each entry is stamped with the running offset just before
   * its line is written, and the offset moves past the line.
   */
  method WriteLinesStamped(jsonLength: LogEntry -> nat, batch: seq<LogEntry>, start: int)
    returns (written: seq<LogEntry>, offset: int)
    ensures written == StampedAtLineStarts(jsonLength, batch, start)
    ensures offset == start + TotalLength(jsonLength, written)
  {
    written := [];
    offset := start;
    var i := 0;
    while i < |batch|
      invariant 0 <= i <= |batch|
      invariant written == StampedAtLineStarts(jsonLength, batch[..i], start)
      invariant offset == start + TotalLength(jsonLength, written)
    {
      var entry := batch[i].(offset := offset);
      StampedSnoc(jsonLength, batch, i, start, written, offset);
      written := written + [entry];
      offset := offset + LineLength(jsonLength, entry);
      i := i + 1;
    }
    assert batch[..|batch|] == batch;
  }

  /** What `readLogEntry` finds in the aggregated file `fileId`, and in no other file. */
  function ReadFile(jsonLength: LogEntry -> nat, fileId: string, lines: seq<LogEntry>, start: int)
    : (string, Int64) -> Option<LogEntry>
  {
    (f: string, offset: Int64) => if f == fileId then EntryAt(jsonLength, lines, start, offset) else None
  }

  /** Lines that can all be found again through the index: one file whose id has no colon, offsets in range. */
  predicate OneLocatableFile(lines: seq<LogEntry>, fileId: string)
  {
    ':' !in fileId && forall i :: 0 <= i < |lines| ==> lines[i].fileId == fileId && lines[i].offset <= MaxInt64
  }

  /**
   * With offsets stamped at line starts, an index lookup on an indexed key returns exactly
   * the entry filed last under it, read back from the file.
   */
  lemma IndexedEntryReadsBack(jsonLength: LogEntry -> nat, lines: seq<LogEntry>, start: int, fileId: string,
                              buckets: Buckets, query: LogQuery)
    requires start >= 0 && OffsetsAccurate(jsonLength, lines, start) && OneLocatableFile(lines, fileId)
    requires LookupKey(query).Some? && LookupKey(query).value.0 in buckets
    requires LastWith(lines, LookupKey(query).value.0, LookupKey(query).value.1) >= 0
    ensures QueryWithIndex(query, IndexAll(buckets, lines), ReadFile(jsonLength, fileId, lines, start))
      == Ok([lines[LastWith(lines, LookupKey(query).value.0, LookupKey(query).value.1)]])
  {
    var j := LastWith(lines, LookupKey(query).value.0, LookupKey(query).value.1);
    forall i | 0 <= i < |lines| ensures MinInt64 <= lines[i].offset {
      AccurateOffsetsGrow(jsonLength, lines, start, i);
    }
    LookupFindsLastIndexed(buckets, lines, query, ReadFile(jsonLength, fileId, lines, start));
    ReadBack(jsonLength, lines, start, j);
  }

  /**
   * As written, a lookup for the trace of the second entry of a batch returns the first
   * entry, which belongs to another trace.
   */
  lemma AsWrittenLookupReturnsOtherTrace(jsonLength: LogEntry -> nat, first: LogEntry, second: LogEntry,
                                         fileId: string, start: int, query: LogQuery)
    requires 0 <= start <= MaxInt64 && ':' !in fileId
    requires first.traceId != second.traceId && second.traceId != "" && query.traceId == second.traceId
    ensures var lines := FlushedAsWritten([first, second], fileId, start);
      QueryWithIndex(query, IndexAll(InitialBuckets(), lines), ReadFile(jsonLength, fileId, lines, start))
        == Ok([lines[0]])
      && lines[0].traceId != query.traceId
  {
    var lines := FlushedAsWritten([first, second], fileId, start);
    assert LastWith(lines, TraceIdBucket, second.traceId) == 1;
    LookupFindsLastIndexed(InitialBuckets(), lines, query, ReadFile(jsonLength, fileId, lines, start));
    FlushedAsWrittenMisplaces(jsonLength, [first, second], fileId, start);
  }

  /** `%03d`: at least three digits, padded on the left with zeros. */
  function Pad3(digits: string): (r: string)
    ensures |r| == if |digits| >= 3 then |digits| else 3
    ensures r[|r| - |digits|..] == digits
    ensures forall i :: 0 <= i < |r| - |digits| ==> r[i] == '0'
  {
    if |digits| >= 3 then digits
    else
      var zeros := seq(3 - |digits|, _ => '0');
      assert (zeros + digits)[|zeros|..] == digits;
      zeros + digits
  }

  /** `initializeFile`'s file id: the service, the date as "2006-01-02", and the day's sequence number. */
  function FileId(serviceName: string, date: string, sequence: nat): string
  {
    serviceName + "_" + date + "_" + Pad3(NatToString(sequence))
  }

  /** A file id has no colon, so its index entries can be read back, unless the service name or date has one. */
  lemma FileIdColonFree(serviceName: string, date: string, sequence: nat)
    ensures ':' !in FileId(serviceName, date, sequence) <==> ':' !in serviceName && ':' !in date
  {
    var digits := NatToString(sequence);
    var padded := Pad3(digits);
    forall i | 0 <= i < |padded| ensures padded[i] != ':' {
      if i >= |padded| - |digits| {
        assert padded[i] == digits[i - (|padded| - |digits|)];
      }
    }
    var id := FileId(serviceName, date, sequence);
    assert id == serviceName + ("_" + date + "_" + padded);
    assert id == (serviceName + "_") + date + ("_" + padded);
  }

  /** The number of listed names that do not end in ".gz". */
  function CountUncompressed(files: seq<string>): (n: nat)
    ensures n <= |files|
  {
    if files == [] then 0
    else CountUncompressed(files[..|files| - 1]) + (if HasSuffix(files[|files| - 1], ".gz") then 0 else 1)
  }

  /** `getFileSequence`: one more than the day's uncompressed files, or 1 when the listing failed. */
  function FileSequence(sameDayFiles: Option<seq<string>>): (n: nat)
    ensures 1 <= n
    ensures sameDayFiles.Some? ==> n <= |sameDayFiles.value| + 1
    ensures sameDayFiles.Some? && (forall i :: 0 <= i < |sameDayFiles.value| ==> !HasSuffix(sameDayFiles.value[i], ".gz"))
      ==> n == |sameDayFiles.value| + 1
  {
    match sameDayFiles
    case None => 1
    case Some(files) =>
      UncompressedCountsAll(files);
      CountUncompressed(files) + 1
  }

  /** With no compressed name listed, every name counts. */
  lemma {:induction false} UncompressedCountsAll(files: seq<string>)
    ensures (forall i :: 0 <= i < |files| ==> !HasSuffix(files[i], ".gz")) ==> CountUncompressed(files) == |files|
  {
    if files != [] {
      UncompressedCountsAll(files[..|files| - 1]);
    }
  }

  /** What `initializeFile` finds: the date, the listing of that day's files, and the size of the opened file. */
  datatype OpenedFile = OpenedFile(date: string, sameDayFiles: Option<seq<string>>, size: Option<nat>)

  /** The offset a newly opened file starts at: its size, or 0 when `Stat` failed. */
  function StartSize(file: OpenedFile): nat
  {
    if file.size.Some? then file.size.value else 0
  }

  /** The settings `NewLogAggregator` keeps: a rotation size of 100 MiB and 10 backups unless positive ones are given. */
  function AggregatorSettings(rotationSize: int, maxBackups: int): (s: (int, int))
    ensures s.0 > 0 && s.1 > 0
    ensures s.0 == (if rotationSize > 0 then rotationSize else 100 * 1024 * 1024)
    ensures s.1 == (if maxBackups > 0 then maxBackups else 10)
  {
    (if rotationSize <= 0 then 104857600 else rotationSize, if maxBackups <= 0 then 10 else maxBackups)
  }

  /** Why `NewLogAggregator` failed: an empty argument, or the directories, database or file could not be set up. */
  datatype NewError = EmptyOutputDir | EmptyServiceName | StorageFailed

  /**
   * Why a write failed: the aggregator is closed; a write or flush of the file failed;
   * closing the file failed; or the rotation failed (`WriteLog` wraps any error of
   * `rotateFile` as that).
   */
  datatype WriteError = AggregatorClosed | WriteFailed | CloseFailed | RotationFailed

  /** The entry `WriteLog` buffers: stamped with the file and offset, and with the time when it had none. */
  function Enqueued(entry: LogEntry, now: string, fileId: string, offset: int): (e: LogEntry)
    ensures e.fileId == fileId && e.offset == offset
    ensures e.timestamp == (if entry.timestamp == "" then now else entry.timestamp)
    ensures e.(fileId := entry.fileId, offset := entry.offset, timestamp := entry.timestamp) == entry
  {
    entry.(fileId := fileId, offset := offset, timestamp := if entry.timestamp == "" then now else entry.timestamp)
  }

  /** `LogAggregator`. */
  class LogAggregator {
    const outputDir: string
    const serviceName: string
    const rotationSize: int
    const maxBackups: int
    const batchSize: int
    /** The length of `json.Marshal` of an entry. */
    const jsonLength: LogEntry -> nat
    var currentFileId: string
    /** The size of the current file when it was opened. */
    var fileStart: int
    var currentOffset: int
    /** The lines this aggregator has appended to the current file. */
    var lines: seq<LogEntry>
    var batchBuffer: seq<LogEntry>
    /** Every entry handed to the index workers, in order. */
    var indexQueue: seq<LogEntry>
    var closed: bool
    /** Whether `aggregateFile` is still open; once the aggregator exists it is never nil. */
    var fileOpen: bool
    /** Whether `writer` holds a write error, which a `bufio.Writer` keeps and returns from then on. */
    var writerFailed: bool

    /**
     * While the file is open, the offset is its end, no written line records an offset
     * before the file's start or past its own line, and everything belongs to the current
     * file; a writer holds an error only once its file is closed; every buffered entry
     * records `currentOffset`, which no write has moved yet.
     */
    predicate Valid()
      reads this
    {
      batchSize == 100
      && (writerFailed ==> !fileOpen)
      && (fileOpen ==> FileCoherent(jsonLength, lines, currentFileId, fileStart, currentOffset))
      && (forall i :: 0 <= i < |batchBuffer| ==>
            batchBuffer[i].fileId == currentFileId && batchBuffer[i].offset == currentOffset)
    }

    constructor Init(outputDir: string, serviceName: string, rotationSize: int, maxBackups: int,
                     jsonLength: LogEntry -> nat, fileId: string, size: nat)
      ensures Valid() && !closed && fileOpen && !writerFailed
      ensures this.outputDir == outputDir && this.serviceName == serviceName
      ensures this.rotationSize == rotationSize && this.maxBackups == maxBackups && this.jsonLength == jsonLength
      ensures currentFileId == fileId && fileStart == size && currentOffset == size
      ensures lines == [] && batchBuffer == [] && indexQueue == []
    {
      this.outputDir := outputDir;
      this.serviceName := serviceName;
      this.rotationSize := rotationSize;
      this.maxBackups := maxBackups;
      this.jsonLength := jsonLength;
      batchSize := 100;
      currentFileId := fileId;
      fileStart := size;
      currentOffset := size;
      lines := [];
      batchBuffer := [];
      indexQueue := [];
      closed := false;
      fileOpen := true;
      writerFailed := false;
    }

    /**
     * `NewLogAggregator`: the output directory and then the service name must be non-empty;
     * `storageOk` says whether the directories, the index database and its buckets, and
     * the first file could all be set up.
     */
    static method New(outputDir: string, serviceName: string, rotationSize: int, maxBackups: int,
                      jsonLength: LogEntry -> nat, storageOk: bool, file: OpenedFile)
      returns (r: Result<LogAggregator, NewError>)
      ensures outputDir == "" ==> r == Err(EmptyOutputDir)
      ensures outputDir != "" && serviceName == "" ==> r == Err(EmptyServiceName)
      ensures r.Ok? <==> outputDir != "" && serviceName != "" && storageOk
      ensures r.Ok? ==> fresh(r.value) && r.value.Valid() && !r.value.closed
      ensures r.Ok? ==> r.value.fileOpen && !r.value.writerFailed
      ensures r.Ok? ==> r.value.outputDir == outputDir && r.value.serviceName == serviceName
      ensures r.Ok? ==> r.value.jsonLength == jsonLength
      ensures r.Ok? ==> (r.value.rotationSize, r.value.maxBackups) == AggregatorSettings(rotationSize, maxBackups)
      ensures r.Ok? ==> r.value.currentFileId == FileId(serviceName, file.date, FileSequence(file.sameDayFiles))
      ensures r.Ok? ==> r.value.currentOffset == StartSize(file)
      ensures r.Ok? ==> r.value.lines == [] && r.value.batchBuffer == [] && r.value.indexQueue == []
    {
      if outputDir == "" {
        return Err(EmptyOutputDir);
      }
      if serviceName == "" {
        return Err(EmptyServiceName);
      }
      var size := rotationSize;
      if size <= 0 {
        size := 100 * 1024 * 1024;
      }
      var backups := maxBackups;
      if backups <= 0 {
        backups := 10;
      }
      if !storageOk {
        return Err(StorageFailed);
      }
      var fileId := FileId(serviceName, file.date, FileSequence(file.sameDayFiles));
      var a := new LogAggregator.Init(outputDir, serviceName, size, backups, jsonLength, fileId, StartSize(file));
      return Ok(a);
    }

    /**
     * `flushBatch`: the buffer is emptied and its entries are written out in order as they
     * are, each queued for the index as its write goes through; the offset moves past every
     * line written. Every written entry keeps the offset it was buffered with, the one the
     * batch starts at. While the file is open every line reaches it. On a closed file the
     * lines that fit are only taken into the writer's buffer, and the flush fails, at the
     * first line that does not fit or at the final `writer.Flush`; the writer keeps that error.
     */
    method FlushBatch() returns (r: Outcome<WriteError>)
      requires Valid()
      modifies this
      ensures Valid()
      ensures batchBuffer == []
      ensures old(batchBuffer) == FlushedAsWritten(old(batchBuffer), old(currentFileId), old(currentOffset))
      ensures old(fileOpen) ==>
        r == Pass && lines == old(lines) + old(batchBuffer) && indexQueue == old(indexQueue) + old(batchBuffer)
        && currentOffset == old(currentOffset) + TotalLength(jsonLength, old(batchBuffer))
      ensures !old(fileOpen) ==>
        var accepted := old(batchBuffer)[..Accepted(jsonLength, old(batchBuffer), false, old(writerFailed))];
        lines == old(lines) && indexQueue == old(indexQueue) + accepted
        && currentOffset == old(currentOffset) + TotalLength(jsonLength, accepted)
        && (r == Pass <==> old(batchBuffer) == []) && (r.Fail? ==> r == Fail(WriteFailed))
      ensures var accepted := old(batchBuffer)[..Accepted(jsonLength, old(batchBuffer), old(fileOpen), old(writerFailed))];
        indexQueue == old(indexQueue) + accepted && currentOffset == old(currentOffset) + TotalLength(jsonLength, accepted)
      ensures writerFailed == (old(writerFailed) || r.Fail?)
      ensures currentFileId == old(currentFileId) && fileStart == old(fileStart)
      ensures closed == old(closed) && fileOpen == old(fileOpen)
    {
      assert batchBuffer[..|batchBuffer|] == batchBuffer;
      BufferFlushedAsWritten(batchBuffer, currentFileId, currentOffset);
      if |batchBuffer| == 0 {
        return Pass;
      }
      var batch := batchBuffer;
      batchBuffer := [];
      var room := if writerFailed then 0 else WriterBufferSize;
      var queued, end := WriteLines(jsonLength, batch, currentOffset, fileOpen, room);
      if fileOpen {
        AppendAsWritten(jsonLength, lines, currentFileId, fileStart, currentOffset, batch);
        lines := lines + batch;
        indexQueue := indexQueue + batch;
        currentOffset := end;
        return Pass;
      }
      indexQueue := indexQueue + queued;
      currentOffset := end;
      writerFailed := true;
      return Fail(WriteFailed);
    }

    /**
     * The flush corrected: each entry is stamped with `currentOffset` just before its line
     * is written, so that it records where its own line starts. On a closed file it fails
     * as `FlushBatch` does.
     */
    method FlushBatchStamped() returns (r: Outcome<WriteError>)
      requires Valid()
      modifies this
      ensures Valid()
      ensures batchBuffer == []
      ensures old(fileOpen) ==>
        r == Pass
        && lines == old(lines) + StampedAtLineStarts(jsonLength, old(batchBuffer), old(currentOffset))
        && indexQueue == old(indexQueue) + StampedAtLineStarts(jsonLength, old(batchBuffer), old(currentOffset))
        && currentOffset
           == old(currentOffset) + TotalLength(jsonLength, StampedAtLineStarts(jsonLength, old(batchBuffer), old(currentOffset)))
      ensures !old(fileOpen) ==> lines == old(lines) && (r == Pass <==> old(batchBuffer) == [])
      ensures currentFileId == old(currentFileId) && fileStart == old(fileStart)
      ensures closed == old(closed) && fileOpen == old(fileOpen)
    {
      if !fileOpen {
        r := FlushBatch();
        return;
      }
      if |batchBuffer| == 0 {
        return Pass;
      }
      var batch := batchBuffer;
      batchBuffer := [];
      var written, end := WriteLinesStamped(jsonLength, batch, currentOffset);
      AppendStamped(jsonLength, lines, currentFileId, fileStart, currentOffset, batch, written);
      lines := lines + written;
      indexQueue := indexQueue + written;
      currentOffset := end;
      return Pass;
    }

    /**
     * `initializeFile`: the writer is flushed and the current file closed, and the new file
     * becomes current, with its id and the offset set to the size it already has (0 when
     * that cannot be read). A writer that holds an error fails the flush, and a file that
     * is already closed fails the close; either way nothing changes.
     */
    method InitializeFile(file: OpenedFile) returns (r: Outcome<WriteError>)
      requires Valid() && batchBuffer == []
      modifies this
      ensures Valid() && batchBuffer == []
      ensures r == Pass <==> old(fileOpen)
      ensures old(writerFailed) ==> r == Fail(WriteFailed)
      ensures !old(writerFailed) && !old(fileOpen) ==> r == Fail(CloseFailed)
      ensures r.Fail? ==>
        lines == old(lines) && currentFileId == old(currentFileId) && fileStart == old(fileStart)
        && currentOffset == old(currentOffset) && fileOpen == old(fileOpen) && writerFailed == old(writerFailed)
      ensures r.Pass? ==>
        lines == [] && fileOpen && !writerFailed
        && currentFileId == FileId(serviceName, file.date, FileSequence(file.sameDayFiles))
        && fileStart == StartSize(file) && currentOffset == StartSize(file)
      ensures indexQueue == old(indexQueue) && closed == old(closed)
    {
      if writerFailed {
        return Fail(WriteFailed);
      }
      if !fileOpen {
        return Fail(CloseFailed);
      }
      currentFileId := FileId(serviceName, file.date, FileSequence(file.sameDayFiles));
      fileStart := StartSize(file);
      currentOffset := fileStart;
      lines := [];
      return Pass;
    }

    /**
     * `rotateFile` as written: the buffer is flushed into the old file, the writer is
     * flushed and the file closed, and `initializeFile` is called with the closed file
     * still set, so it closes it a second time, which fails. The rotation never succeeds:
     * the id, the offset and the start stay those of the old file, which is now closed.
     */
    method RotateFile(file: OpenedFile) returns (r: Outcome<WriteError>)
      requires Valid()
      modifies this
      ensures Valid() && r.Fail? && !fileOpen && batchBuffer == []
      ensures old(fileOpen) ==> r == Fail(CloseFailed) && !writerFailed && lines == old(lines) + old(batchBuffer)
      ensures !old(fileOpen) ==> lines == old(lines) && writerFailed == (old(writerFailed) || old(batchBuffer) != [])
      ensures var accepted := old(batchBuffer)[..Accepted(jsonLength, old(batchBuffer), old(fileOpen), old(writerFailed))];
        indexQueue == old(indexQueue) + accepted && currentOffset == old(currentOffset) + TotalLength(jsonLength, accepted)
      ensures currentFileId == old(currentFileId) && fileStart == old(fileStart) && closed == old(closed)
    {
      r := FlushBatch();
      if r.Fail? {
        return;
      }
      if writerFailed {
        return Fail(WriteFailed);
      }
      if !fileOpen {
        return Fail(CloseFailed);
      }
      fileOpen := false;
      r := InitializeFile(file);
    }

    /**
     * The rotation corrected: the file pointer is cleared once the file is closed, so
     * `initializeFile` closes nothing more and the new file becomes current. Here that is
     * `InitializeFile` on the open file, which closes it once and opens the new one.
     */
    method RotateFileCorrected(file: OpenedFile) returns (r: Outcome<WriteError>)
      requires Valid()
      modifies this
      ensures Valid() && batchBuffer == []
      ensures r == Pass <==> old(fileOpen)
      ensures old(fileOpen) ==>
        lines == [] && fileOpen && indexQueue == old(indexQueue) + old(batchBuffer)
        && currentFileId == FileId(serviceName, file.date, FileSequence(file.sameDayFiles))
        && fileStart == StartSize(file) && currentOffset == StartSize(file)
      ensures !old(fileOpen) ==> currentFileId == old(currentFileId) && fileStart == old(fileStart)
      ensures closed == old(closed)
    {
      r := FlushBatch();
      if r.Fail? {
        return;
      }
      if writerFailed {
        return Fail(WriteFailed);
      }
      if !fileOpen {
        return Fail(CloseFailed);
      }
      r := InitializeFile(file);
    }

    /**
     * `WriteLog`: refused once closed; otherwise the entry is stamped and buffered. When
     * `rotate` carries the next file (`shouldRotate` held), the file is rotated, which
     * flushes the buffer and then fails, so the call fails with the old file closed and
     * still current; when the buffer reaches the batch size it is flushed, and the call
     * answers what the flush answers.
     */
    method WriteLog(entry: LogEntry, now: string, rotate: Option<OpenedFile>) returns (r: Outcome<WriteError>)
      requires Valid()
      modifies this
      ensures Valid()
      ensures r == Fail(AggregatorClosed) <==> old(closed)
      ensures closed == old(closed) && fileStart == old(fileStart) && currentFileId == old(currentFileId)
      ensures |batchBuffer| < batchSize || batchBuffer == old(batchBuffer)
      ensures old(closed) ==>
        lines == old(lines) && batchBuffer == old(batchBuffer) && indexQueue == old(indexQueue)
        && currentOffset == old(currentOffset) && fileOpen == old(fileOpen) && writerFailed == old(writerFailed)
      ensures var buffered := old(batchBuffer) + [Enqueued(entry, now, old(currentFileId), old(currentOffset))];
        !old(closed) ==> buffered == FlushedAsWritten(buffered, old(currentFileId), old(currentOffset))
      ensures !old(closed) && rotate.None? && |old(batchBuffer)| + 1 < batchSize ==>
        r == Pass && batchBuffer == old(batchBuffer) + [Enqueued(entry, now, old(currentFileId), old(currentOffset))]
        && lines == old(lines) && indexQueue == old(indexQueue) && currentOffset == old(currentOffset)
        && fileOpen == old(fileOpen) && writerFailed == old(writerFailed)
      ensures !old(closed) && (rotate.Some? || |old(batchBuffer)| + 1 >= batchSize) ==>
        var buffered := old(batchBuffer) + [Enqueued(entry, now, old(currentFileId), old(currentOffset))];
        var accepted := buffered[..Accepted(jsonLength, buffered, old(fileOpen), old(writerFailed))];
        batchBuffer == [] && indexQueue == old(indexQueue) + accepted
        && currentOffset == old(currentOffset) + TotalLength(jsonLength, accepted)
        && lines == (if old(fileOpen) then old(lines) + buffered else old(lines))
      ensures !old(closed) && rotate.Some? ==> r == Fail(RotationFailed) && !fileOpen
      ensures !old(closed) && (rotate.Some? || |old(batchBuffer)| + 1 >= batchSize) ==> writerFailed == !old(fileOpen)
      ensures !old(closed) && rotate.None? && |old(batchBuffer)| + 1 >= batchSize ==>
        (r == Pass <==> old(fileOpen)) && fileOpen == old(fileOpen)
    {
      if closed {
        return Fail(AggregatorClosed);
      }
      var stamped := Enqueued(entry, now, currentFileId, currentOffset);
      batchBuffer := batchBuffer + [stamped];
      BufferFlushedAsWritten(batchBuffer, currentFileId, currentOffset);
      if rotate.Some? {
        var rotated := RotateFile(rotate.value);
        return Fail(RotationFailed);
      }
      if |batchBuffer| >= batchSize {
        r := FlushBatch();
        return;
      }
      return Pass;
    }

    /**
     * `Close`: the first call marks the aggregator closed, writes out what is buffered,
     * as `flushBatch` does and whatever it answers, and closes the file; a second call
     * changes nothing.
     */
    method Close()
      requires Valid()
      modifies this
      ensures Valid() && closed
      ensures currentFileId == old(currentFileId) && fileStart == old(fileStart)
      ensures old(closed) ==>
        lines == old(lines) && batchBuffer == old(batchBuffer) && indexQueue == old(indexQueue)
        && currentOffset == old(currentOffset) && fileOpen == old(fileOpen)
      ensures !old(closed) ==>
        var accepted := old(batchBuffer)[..Accepted(jsonLength, old(batchBuffer), old(fileOpen), old(writerFailed))];
        batchBuffer == [] && !fileOpen && indexQueue == old(indexQueue) + accepted
        && currentOffset == old(currentOffset) + TotalLength(jsonLength, accepted)
        && lines == (if old(fileOpen) then old(lines) + old(batchBuffer) else old(lines))
    {
      if closed {
        return;
      }
      closed := true;
      var flushed := FlushBatch();
      fileOpen := false;
    }
  }
}
