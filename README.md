# A model of the trace and logz core

This project models the deterministic core of a Go tracing and logging backend, and proves
properties of that model. The backend has these parts:

- Trace and span identifiers with a timestamp fallback for the random generator.
- Trace-context propagation over HTTP headers.
- Configuration loading, validation and repair for the application, SMTP and an
  OpenTelemetry/Jaeger exporter.
- A logger with e-mail notification under a per-level throttle.
- A log aggregator that writes JSON lines in batches and files every entry in a key/value
  index (five buckets: trace id, span id, level, service, time).
- A log query engine that answers from the index when exactly one indexed condition is set,
  and otherwise scans the files and pages the matches.
- The web API's request checks.
- The log viewer's paging loop, its per-client rate limiter and its page cache.

The model works like this:

- Time is an integer count of nanoseconds.
- Each file is a sequence of lines.
- The process environment is a `map<string, string>`.
- The index database is a map from bucket to a map from key to value.
- Whatever the code gets from outside appears as a parameter: the random generator, the
  clock, `json`, `regexp`, `time.Parse`, the file system and the database's errors.

Where the source changes state in place, the model does too:

- The aggregator, the index database, the logger, the e-mail notifier, the configuration,
  the HTTP request's header, the rate limiter and the web server's cache are classes with
  `modifies` clauses.
- The identifier fallback fills an `array` byte by byte.

Most loops of the source are methods with a `while` loop. Each is proved against a function
that states what it computes, and that function's properties are proved as lemmas. A few
small loops are functions instead: `getFileSequence`'s count is the recursive function
`Aggregator.CountUncompressed`, and the loop of `initIndexDB` that creates the buckets is the
constant `LogIndex.InitialBuckets`.

Modules, one per file:

- `Basics`, `Text`, `Numerals`, `Env`: shared helpers. They cover `Option`/`Outcome`/`Result`,
  Go's `strings` functions on `seq<char>`, `%d` printing with `strconv.ParseInt`, and `os.Getenv`.
- `TraceIds` (trace.go), `HttpTrace` (http.go), `Email` (email.go), `Jaeger` (jaeger.go),
  `Configuration` (config.go).
- `Logz` (logz/logz.go).
- `LogQuery`, `LogIndex` and `Aggregator` (logz/file.go): the filter and the paging, the
  index, and the batch writer.
- `WebApi` (logz/web/api.go) and `LogViewer` (logz/web/main.go).

## Model

| member | source | states |
|---|---|---|
| TraceIds.IsValid | trace.go:71-88 | the loop's answer is true exactly when some byte of the identifier is non-zero |
| TraceIds.ZeroIdsInvalid | trace.go:71-88 | the all-zero 16- and 8-byte identifiers are invalid, and the all-zero trace id is the only invalid one |
| TraceIds.HexEncode | trace.go:61-68 | `hex.EncodeToString` gives two lower-case hex digits per byte |
| TraceIds.TraceIdString | trace.go:61-63 | a trace id prints as 32 lower-case hex digits |
| TraceIds.SpanIdString | trace.go:66-68 | a span id prints as 16 lower-case hex digits |
| TraceIds.HexDecodeEncode | trace.go:61-68 | decoding the printed form gives back the original bytes |
| TraceIds.HexEncodeDecode | trace.go:61-68 | re-encoding any decodable hex string gives the same string in lower case |
| TraceIds.TraceFallback | trace.go:33-38 | byte i of the fallback trace id is byte i of the timestamp, and bytes 8..15 repeat bytes 0..7 |
| TraceIds.SpanFallback | trace.go:53-55 | byte i of the fallback span id is byte i of the timestamp |
| TraceIds.FillTraceFallback | trace.go:33-38 | the two fill loops leave the 16-byte array holding the fallback trace id |
| TraceIds.FillSpanFallback | trace.go:53-55 | the fill loop leaves the 8-byte array holding the fallback span id |
| TraceIds.GenerateTraceId | trace.go:25-42 | the random id when the generator succeeds, and otherwise the timestamp fallback |
| TraceIds.GenerateSpanId | trace.go:45-58 | the random id when the generator succeeds, and otherwise the timestamp fallback |
| TraceIds.SpanFallbackIsTracePrefix | trace.go:33-55 | for one timestamp, the fallback span id is the first half of the fallback trace id |
| TraceIds.FallbackValidIff | trace.go:25-88 | a fallback identifier is valid exactly when the timestamp is non-zero |
| HttpTrace.IsValidContextIff | http.go:114-118 | a context is valid exactly when both its trace id and its span id hold a non-space character |
| HttpTrace.CreateRootSpan | http.go:105-111 | a root span has fresh printed ids and no parent, and is valid |
| HttpTrace.CreateChildSpan | http.go:88-101 | a valid parent's child keeps the trace id, has the parent's span id as parent and a fresh span id; an invalid parent gives a root span |
| HttpTrace.ChildChainKeepsTrace | http.go:88-101 | any chain of children of a valid root stays valid, keeps the root's trace id and ends in the last fresh span id |
| HttpTrace.ContextString | http.go:121-127 | the parent segment is printed exactly when the parent span id is non-empty |
| HttpTrace.SpanName | http.go:175-181 | the method, a space, then the path, with an empty path printed as "/" |
| HttpTrace.PeerIp | http.go:204-211 | no attribute for an empty address; otherwise the address up to its last ':', or all of it when it has none |
| HttpTrace.ServerSpanStatus | http.go:217-226 | Error exactly for codes of 400 and above, Ok for the rest |
| HttpTrace.ClientSpanStatus | http.go:256-270 | Error exactly when the request failed or the response code is 400 or above; never Ok |
| HttpTrace.TraceHeaderKeys | http.go:19-23 | the three trace headers are stored under their canonical forms "X-Trace-Id", "X-Span-Id", "X-Parent-Span-Id" |
| HttpTrace.SetTraceHeaders | http.go:45-53 | each trace header is set only if its field is non-empty; that header otherwise keeps its old value, and other headers are unchanged |
| HttpTrace.HeaderRoundTrip | http.go:42-66 | a context with all three ids set reads back unchanged from any header, and any context reads back unchanged from an empty header |
| HttpTrace.HttpRequest.TraceContextFromHeader | http.go:60-66 | each field is the first value stored under its canonical key ("X-Trace-Id", "X-Span-Id", "X-Parent-Span-Id"), or "" when the key is missing or has no value |
| HttpTrace.SetTraceContextToHttpHeader | http.go:42-57 | with a request in the context, its header becomes the header with the non-empty trace headers set and then the propagator's headers; if all three ids are set and the propagator writes none of the three keys, reading the context back gives the one written; with no request nothing changes |
| HttpTrace.InjectedRoundTrip | http.go:42-66 | headers written besides the three trace keys do not change the context read back, when all three ids were written |
| HttpTrace.InjectTraceContext | http.go:228-232 | every header the propagator writes replaces that key's values, and every other key is unchanged |
| Email.ValidateEmailParams | email.go:154-165 | it passes exactly when recipient, subject and body are non-empty, and the first empty one in that order is the error |
| Email.ValidateSmtpConfig | email.go:168-182 | it passes exactly with a host, a port in 1..65535, a user and a password, and the first failing check in that order is the error |
| Email.DefaultSmtpConfigNeedsCredentials | email.go:42-51 | the default configuration has TLS on and verification on, and fails validation for want of a user |
| Email.SendEmail | email.go:116-151 | the parameters are checked first and the configuration second, and only then delivery is tried, so delivery can fail only when both checks pass |
| Email.GetEnvIntOrDefault | email.go:95-102 | the default when the variable is unset, empty or not an integer; otherwise its value |
| Email.GetEnvBoolOrDefault | email.go:105-112 | the default when the variable does not parse as a boolean; otherwise its value |
| Email.LoadSmtpConfigFromEnv | email.go:64-92 | the host comes from the environment or the default; the port changes only to a positive parsed value; credentials are copied; TLS stays on; skip-verify is on only when the variable parses as true |
| Jaeger.FirstEnv | jaeger.go:137-144 | "" exactly when every key is unset or empty; otherwise the value of the first key whose value is non-empty |
| Jaeger.GetFirstEnv | jaeger.go:137-144 | the loop with its early return computes `FirstEnv` |
| Jaeger.FirstEnvOfPair | jaeger.go:45-59 | for two keys, the first key's value wins whenever it is non-empty |
| Jaeger.ReadPair | jaeger.go:45-59 | reading a pair of variables gives the preferred one |
| Jaeger.LoadJaegerConfigFromEnv | jaeger.go:41-70 | each field takes the OTEL_ variable, else the JAEGER_ one, else keeps its default; Enabled is true for "otlp"/"jaeger", else a parsed boolean, else unchanged |
| Jaeger.ValidateJaegerConfig | jaeger.go:147-155 | it passes exactly with a service name and an endpoint, and the service name is checked first |
| Jaeger.CreateSampler | jaeger.go:183-189 | always-sample exactly for "development" and "dev", and ratio 0.1 otherwise |
| Jaeger.UseInsecureTransport | jaeger.go:164-166 | the insecure transport is chosen exactly for an endpoint beginning "http://" |
| Jaeger.InsecureTransportCases | jaeger.go:164-166 | the default endpoint uses the insecure transport and an "https://" endpoint never does |
| Jaeger.InitJaeger | jaeger.go:73-126 | a nil config is an error; a disabled one gives a no-op without validating; an enabled one must validate, and the exporter and resource must be built, before a provider exists |
| Configuration.ValidateFields | config.go:93-118 | it passes exactly with the ratio in [0, 1], a level accepted case-insensitively and a valid Jaeger config, and the failing checks are reported in that order |
| Configuration.Validate | config.go:88-119 | a nil config fails first; any other config is judged by its fields |
| Configuration.FixedRatio | config.go:127-129 | a repaired ratio is in range, and a ratio already in range is kept |
| Configuration.FixedLevel | config.go:131-145 | a repaired level is accepted, and a level already accepted is kept as written |
| Configuration.FixedJaeger | config.go:147-159 | every empty Jaeger field gets its default and every non-empty field is kept |
| Configuration.FixThenValidate | config.go:93-159 | after repair, validation passes |
| Configuration.FixIdempotent | config.go:122-160 | repairing twice gives the same as repairing once |
| Configuration.FixKeepsValidConfig | config.go:122-160 | repairing a valid configuration changes only empty environment or version fields |
| Configuration.MixedCaseLevelsKept | config.go:131-145 | "WARNING" and "Error" are kept as written; "verbose" becomes "info" |
| Configuration.Config.Default | config.go:31-42 | the default configuration has level info, ratio 1.0, the default Jaeger and SMTP settings and metrics on, and it validates |
| Configuration.Fix | config.go:122-160 | a nil config is left alone; otherwise every field is repaired in place, the others are kept, and the config then validates |
| Logz.LevelFromString | logz/logz.go:161-179 | each of the five other level names selects its level case-insensitively, and every other string selects info |
| Logz.LevelNamesRoundTrip | logz/logz.go:161-179 | each level name maps to its level, "invalid" goes to info, and upper case is accepted |
| Logz.DefaultLogger.constructor | logz/logz.go:96-129 | the default logger starts at level info with no file and no rotation |
| Logz.DefaultLogger.SetLevel | logz/logz.go:161-179 | stores the level parsed from the name and the raw name itself, even when it is not recognised |
| Logz.RotationSettings | logz/logz.go:254-266 | a size of 0 or less becomes 100 MiB, a backup count of 0 or less becomes 3, and positive values are kept |
| Logz.RotationSettingsFixedPoint | logz/logz.go:254-266 | applying the defaults again changes nothing |
| Logz.DefaultLogger.SetFileOutputWithRotation | logz/logz.go:225-270 | the rotation settings are recorded whatever follows; an empty path or a failed open is an error; the path is recorded only on success |
| Logz.CreateTraceFields | logz/logz.go:657-666 | "trace_id" and "span_id" are present exactly when their argument is non-empty, hold that argument, and no other field exists |
| Logz.EmailConfigFromEnv | logz/logz.go:393-410 | enabled exactly when TRACE_EMAIL_ENABLED is "true"; recipient from TRACE_EMAIL_TO; levels error, fatal, panic; throttle 5 minutes |
| Logz.EmailNotifier.constructor | logz/logz.go:296-309 | a nil config gives a disabled notifier with a 5-minute throttle; the throttle map starts empty |
| Logz.EmailNotifier.LevelListed | logz/logz.go:317-328 | the search loop finds the level exactly when some allowed level equals it case-insensitively |
| Logz.AfterDecision | logz/logz.go:334-340 | a send records `now` for the level, and a refusal leaves the throttle map unchanged |
| Logz.EmailNotifier.ShouldSendEmail | logz/logz.go:311-341 | the answer is the send decision, and the throttle map becomes the map after that decision |
| Logz.NoMailWithoutRecipient | logz/logz.go:312-314 | a disabled notifier or one without a recipient never sends and records nothing |
| Logz.DefaultNotifierSilent | logz/logz.go:296-314 | the notifier made from a nil config never sends |
| Logz.ThrottleHolds | logz/logz.go:334-340 | after a send, the same level is refused within the throttle period, and the refusal records nothing |
| Logz.ThrottleExpires | logz/logz.go:334-340 | a level that passes the gate is sent again once the throttle period has elapsed |
| Logz.LevelsThrottledIndependently | logz/logz.go:334-340 | what is recorded for one level does not change the decision for another, and deciding for another level keeps this one's record |
| Logz.AllowListCases | logz/logz.go:317-328 | an empty allow-list lets every level through, and a listed level gets through in any case |
| LogQuery.MatchesQuery | logz/file.go:884-930 | an entry matches exactly when every condition set holds: equal trace, span and service; level equal up to case; message matching the pattern; time within the bounds |
| LogQuery.EmptyQueryMatchesAll | logz/file.go:884-930 | a query with no condition matches every entry |
| LogQuery.TimeBoundsInclusive | logz/file.go:914-927 | with a time bound set, an entry whose time does not parse is rejected, and a time exactly on a bound is within range |
| LogQuery.CanUseIndex | logz/file.go:699-716 | true exactly when one of trace, span, level and service is set and the other three are empty |
| LogQuery.CanUseIndexIgnoresOtherFields | logz/file.go:699-716 | the message, the time range and the paging never change the answer |
| LogQuery.Paginate | logz/file.go:835-847 | the page is `all[offset : min(offset + limit, len)]`, and empty when the offset is at or past the end |
| LogQuery.ConsecutivePages | logz/file.go:835-847 | two consecutive pages of size n together make the page of size 2n |
| LogQuery.PaginateEdges | logz/file.go:835-847 | a limit covering everything from offset 0 returns all matches, and limit 0 returns nothing |
| LogQuery.FileMatches | logz/file.go:851-881 | at most one entry per line of the file |
| LogQuery.LineMatch | logz/file.go:861-878 | a line contributes at most one entry, and only one that matches the query |
| LogQuery.ScanLine | logz/file.go:861-878 | one iteration of the scan loop: a blank line, a line that does not decode and an entry that does not match add nothing |
| LogQuery.FileMatchesMatch | logz/file.go:851-881 | every entry taken from a file matches the query |
| LogQuery.QueryFile | logz/file.go:851-881 | an unreadable file gives an error; otherwise the scan loop returns the matching entries of the decodable non-blank lines, in order |
| LogQuery.QueryWithFileScan | logz/file.go:804-848 | a bad glob is an error; otherwise Total counts every match over the files in order, and the entries are the requested page of them |
| LogQuery.AllMatchesMatch | logz/file.go:804-848 | every entry a scan collects matches the query |
| LogIndex.InitialBuckets | logz/file.go:148-158 | the five buckets exist and are empty |
| LogIndex.EntryKey | logz/file.go:347-399 | the key filed in each bucket is the entry's field, with the level in lower case |
| LogIndex.PutField | logz/file.go:347-399 | one `Put` changes only its own bucket, and sets exactly the entry's key there, overwriting any old value |
| LogIndex.Indexed | logz/file.go:347-399 | indexing an entry keeps the set of buckets, and files the entry's non-empty fields under its location |
| LogIndex.IndexAllKeepsBuckets | logz/file.go:489-502 | indexing any number of entries never adds or removes a bucket |
| LogIndex.LastWith | logz/file.go:347-399 | the position of an entry filed under the key, with no later entry filed under it, or -1 |
| LogIndex.LastWriteWins | logz/file.go:347-399 | after indexing, a key holds the location of the last entry filed under it; a key never filed keeps its old value |
| LogIndex.SplitColon | logz/file.go:751-757 | a split into exactly two parts joins back to the value, and neither part contains ':' |
| LogIndex.SplitColonOfJoin | logz/file.go:751-757 | joining two parts with ':' splits back into them, unless the first part holds a colon |
| LogIndex.LocationRoundTrip | logz/file.go:349-757 | a stored "fileID:offset" reads back as that file and offset exactly when the file id has no colon |
| LogIndex.LookupKey | logz/file.go:725-737 | trace id, then span id, then lower-cased level, then service; no bucket when none is set |
| LogIndex.LookupKeyAgreesWithFilter | logz/file.go:725-737 | for a query the index may answer, an entry is filed under the looked-up key exactly when it passes that condition of the filter |
| LogIndex.QueryWithIndex | logz/file.go:719-774 | a missing bucket, a missing key, a bad location or a failed read is an error; a success holds the one entry read at the stored location |
| LogIndex.LookupFindsLastIndexed | logz/file.go:719-774 | after indexing, a lookup reads at the location of the last entry filed under the key, and returns what is read there and nothing else |
| LogIndex.IndexDb.constructor | logz/file.go:148-158 | the database starts with the five empty buckets |
| LogIndex.IndexDb.AddToIndex | logz/file.go:347-399 | the database becomes the indexed database for the entry |
| LogIndex.IndexDb.IndexQueued | logz/file.go:489-502 | draining the queue indexes every queued entry in order |
| LogIndex.QueryLogs | logz/file.go:674-696 | a successful index lookup is the answer, with Total equal to the number of entries and no paging; any other path gives the file scan's answer |
| Aggregator.TotalLengthAppend | logz/file.go:312-336 | the bytes written for two runs of lines add up |
| Aggregator.OffsetsAccurateIff | logz/file.go:312-336 | entries record their own line starts exactly when each offset is the start plus the lengths of the lines before it |
| Aggregator.AccurateConcat | logz/file.go:312-336 | accurately stamped lines stay accurate when more accurate lines follow them |
| Aggregator.EntryAt | logz/file.go:777-801 | an entry read at an offset is one of the file's lines |
| Aggregator.ReadBack | logz/file.go:777-801 | reading at the offset an accurately stamped entry records gives back that entry |
| Aggregator.AccurateOffsetsGrow | logz/file.go:312-336 | an accurate offset is never below the file's starting size |
| Aggregator.StampedAtLineStarts | logz/file.go:296-344 | corrected flush (see Findings): the batch is written in order and unchanged except for its offsets, and every entry records the start of its own line |
| Aggregator.StampedSnoc | logz/file.go:312-336 | corrected write loop (see Findings): one more iteration appends the next entry, stamped with the running offset, and moves the offset past its line |
| Aggregator.FlushedAsWritten | logz/file.go:270-272 | as written, every entry of a batch records the batch's current file and one offset, the one current when buffered |
| Aggregator.BufferFlushedAsWritten | logz/file.go:270-336 | a buffer whose entries all record the current file and offset is exactly what the flush writes, unchanged |
| Aggregator.FlushedAsWrittenMisplaces | logz/file.go:270-336 | as written, in a batch of two or more, the second entry's offset is wrong, and reading there gives the first entry |
| Aggregator.OffsetsNotPastAt | logz/file.go:270-336 | as written, every line records an offset no smaller than the file's starting size and no greater than the start of its own line |
| Aggregator.OneOffsetNotPast | logz/file.go:270-336 | a batch whose entries all record the offset at which it starts to be written obeys that bound |
| Aggregator.AccurateNotPast | logz/file.go:312-336 | lines stamped at their own starts obey the same bound |
| Aggregator.AppendAsWritten | logz/file.go:270-336 | writing a buffer unchanged whose entries record the file and its end keeps the file coherent: the end moves by the bytes written, and every line stays in the file and records no offset past its own start |
| Aggregator.AppendStamped | logz/file.go:312-336 | corrected flush (see Findings): writing entries stamped at their line starts keeps the file coherent in the same way |
| Aggregator.AcceptedPrefixLongest | logz/file.go:234 | the lines a `bufio.Writer` with some free room takes in before it must use its file are the longest prefix of the batch whose bytes fit in that room |
| Aggregator.Accepted | logz/file.go:312-336 | a flush gets every line past `writer.Write` while the file is open, and none once the writer holds an error |
| Aggregator.WriteLines | logz/file.go:312-336 | the write loop as written writes and queues the batch unchanged while the file is open; on a closed file it stops at the first line that does not fit in the writer's free room, having queued exactly the longest prefix that fits; either way it ends at the start offset plus the bytes of the queued lines |
| Aggregator.WriteLinesStamped | logz/file.go:312-336 | corrected write loop (see Findings): it produces the batch stamped at its line starts and ends at the start offset plus the bytes it wrote |
| Aggregator.IndexedEntryReadsBack | logz/file.go:296-801 | with offsets stamped at line starts, an index lookup returns exactly the entry filed last under the key |
| Aggregator.AsWrittenLookupReturnsOtherTrace | logz/file.go:270-801 | as written, a trace-id lookup for the second entry of a batch returns the first entry, which carries another trace id |
| Aggregator.Pad3 | logz/file.go:216 | `%03d`: the digits, left-padded with zeros to at least three characters |
| Aggregator.FileIdColonFree | logz/file.go:216 | a file id is free of ':' exactly when the service name and the date are |
| Aggregator.FileSequence | logz/file.go:239-255 | the sequence is at least 1; when the glob works it is at most one more than the files listed, and exactly that when none of them ends in ".gz" |
| Aggregator.UncompressedCountsAll | logz/file.go:239-255 | a listing without ".gz" names counts every file |
| Aggregator.AggregatorSettings | logz/file.go:121-126 | a size of 0 or less becomes 100 MiB, a backup count of 0 or less becomes 10, and positive values are kept |
| Aggregator.Enqueued | logz/file.go:270-275 | the buffered entry carries the current file id and offset, gets the current time when it has none, and is otherwise unchanged |
| Aggregator.LogAggregator.Init | logz/file.go:160-195 | a new aggregator is open, with empty buffers, and its offset at the size of the opened file |
| Aggregator.LogAggregator.New | logz/file.go:113-195 | an empty directory and then an empty service name are errors; it fails when storage cannot be set up; otherwise a fresh aggregator that keeps the directory, the service name and the encoder, with the defaults applied, the first file's sequence id and offset |
| Aggregator.LogAggregator.FlushBatch | logz/file.go:296-344 | the buffer empties; every entry records the file and the offset the batch starts at; while the file is open the batch goes into the file and the index queue unchanged, the offset grows by the bytes of its lines, and the flush passes; on a closed file nothing reaches the file, only the lines the writer took in are queued and counted in the offset, and a non-empty flush fails and leaves the writer failed; the invariant is kept, so no line of the open file records an offset past its own start |
| Aggregator.LogAggregator.FlushBatchStamped | logz/file.go:296-344 | corrected flush (see Findings): on the open file each entry is stamped with its line start as it is written, and the offset grows by the bytes written; on a closed file nothing is written and a non-empty flush fails; the invariant is kept |
| Aggregator.LogAggregator.InitializeFile | logz/file.go:198-236 | it succeeds exactly when the current file is open: a failed writer fails the flush and a closed file fails the second close, and then nothing changes; on success the new file is current and open, its id comes from the date and sequence, and the offset starts at the size of the opened file (0 when its size is unknown) |
| Aggregator.LogAggregator.RotateFile | logz/file.go:418-450 | as written (see Findings): the buffer is flushed into the old file and queued for the index; the rotation always fails, with the old file closed and still current: its id, start and offset stay; the writer is left failed exactly when it was already failed or a non-empty buffer was flushed into a closed file |
| Aggregator.LogAggregator.RotateFileCorrected | logz/file.go:418-450 | corrected rotation (see Findings): from an open file it succeeds, the buffer is flushed into the old file and queued, and the new file is current and open with its id and starting offset; from a closed file it fails |
| Aggregator.LogAggregator.WriteLog | logz/file.go:258-293 | refused exactly when closed, and then nothing changes; otherwise the entry is stamped and buffered; on rotation the buffer is flushed and the call fails, with the file closed and its id and start unchanged; after a rotation or a batch flush the writer holds an error exactly when the file was already closed; on reaching 100 entries the buffer is flushed and the call answers as the flush does, so the buffer never reaches 100; a flushed buffer is written with every entry recording the offset current when it was buffered |
| Aggregator.LogAggregator.Close | logz/file.go:622-671 | the first call marks the aggregator closed, flushes the buffer as `flushBatch` does whatever that answers, and closes the file; the file id and start stay, and the offset grows by the bytes flushed; a second call changes nothing |
| WebApi.ValidateLogWriteRequest | logz/web/api.go:403-433 | it passes exactly with one of six levels in any case, a message of 1 to 10000 bytes, and trace, span and service of at most 64, 32 and 100 bytes; the first failing check in that order is the error |
| WebApi.LevelCheckIgnoresCase | logz/web/api.go:405-411 | changing only the case of the level never changes the verdict |
| WebApi.OptionalFieldsMayBeEmpty | logz/web/api.go:422-430 | trace, span and service may all be empty |
| WebApi.WriteEntry | logz/web/api.go:369-391 | the stored entry keeps the ids and caller, and takes the request's time or else the current time |
| WebApi.AcceptedLevelIsCanonical | logz/web/api.go:369-411 | an accepted request is stored with its level in lower case, which is one of the six levels |
| WebApi.BlankMessageStoredEmpty | logz/web/api.go:369-419 | a message of three spaces passes validation and is stored as the empty string |
| WebApi.ValidateFilename | logz/web/api.go:590-604 | it passes exactly for a non-empty name of at most 255 bytes without "..", '/' or '\\'; the first failing check is the error |
| WebApi.AcceptedNameIsOneComponent | logz/web/api.go:590-604 | an accepted name has no separator, is not "..", and has 1 to 255 bytes |
| WebApi.DeleteCheckWeaker | logz/web/api.go:537-604 | every name `validateFilename` accepts passes the delete handler's own check, but "" and "a\\b" pass that check and fail `validateFilename` |
| WebApi.SearchLimit | logz/web/api.go:153-155 | a limit outside 1..10000 becomes 100, and one inside is kept |
| WebApi.SearchOffset | logz/web/api.go:156-158 | a negative offset becomes 0, and others are kept |
| WebApi.SearchQuery | logz/web/api.go:152-183 | refused exactly when both times are set and the start is after the end; otherwise the query has the normalised paging, trimmed fields and the level in lower case |
| WebApi.SearchQueryPagingSettled | logz/web/api.go:153-158 | the normalised paging is in range and normalising it again changes nothing |
| WebApi.SearchTimeRangeEdges | logz/web/api.go:161-164 | an open range is never refused, and neither is a range whose two ends are equal |
| WebApi.FormatFileSize | logz/web/api.go:624-627 | the integer branch is taken exactly below 1024, and its text ends in " B" |
| WebApi.FormatFileSizeReadsBack | logz/web/api.go:624-627 | the number in front of " B" parses back to the size |
| LogViewer.SearchIgnoresCase | logz/web/main.go:420 | the empty search matches every line, and changing the case of the line or the search never changes the match |
| LogViewer.MatchingLines | logz/web/main.go:419-423 | the matches are among the lines and all match |
| LogViewer.MatchingLinesEmptySearch | logz/web/main.go:420 | with an empty search every line matches, in order |
| LogViewer.ViewPage | logz/web/main.go:419-429 | a page holds at most `limit` lines, each one a line of the file that matches the search |
| LogViewer.ReadFileContent | logz/web/main.go:387-432 | an unopenable file is an error; otherwise the total is the number of lines read whatever the search, and the lines are the matches whose match index lies in [offset, offset+limit), in file order |
| LogViewer.WholeFilePage | logz/web/main.go:387-432 | with no search, offset 0 and a limit covering the file, the page is the whole file |
| LogViewer.PositiveParam | logz/web/main.go:237-244 | the default, replaced only by a parsed positive value |
| LogViewer.NonNegativeParam | logz/web/main.go:245-250 | the default, replaced only by a parsed non-negative value |
| LogViewer.ParamsReadBack | logz/web/main.go:237-250 | a printed positive limit or non-negative offset is taken as given, others and the empty text give the defaults |
| LogViewer.ContentParams | logz/web/main.go:237-250 | the content view's limit defaults to 1000, the offset to 0, and both end in range |
| LogViewer.ErrorLogsQuery | logz/web/main.go:309-341 | the error view asks for level "error" through the index, with the limit defaulting to 100 and the offset to 0 |
| LogViewer.ErrorLogsUseLevelIndex | logz/web/main.go:309-341 | the error view's query is always answered by the level bucket under "error" when the index works |
| LogViewer.Recent | logz/web/main.go:495-503 | the kept times are exactly the ones less than a minute old |
| LogViewer.RecentOfRecent | logz/web/main.go:495-503 | pruning at a later time after pruning at an earlier one is pruning at the later time |
| LogViewer.RecentSnocNow | logz/web/main.go:495-513 | a time just recorded survives the pruning at that moment |
| LogViewer.Admit | logz/web/main.go:495-513 | a request is accepted exactly when fewer than 100 recent requests remain; accepted requests append `now`, rejected ones only prune |
| LogViewer.ReplayRecordsRecentAccepted | logz/web/main.go:495-513 | over a run of requests in time order, the stored times are the accepted ones less than a minute old |
| LogViewer.AcceptedWithinRate | logz/web/main.go:485-513 | over a run of requests in time order, no minute ever holds more than 100 accepted requests |
| LogViewer.TimesOf | logz/web/main.go:495-503 | a client's recorded times, and none for an unknown client |
| LogViewer.RateLimiter.Prune | logz/web/main.go:495-503 | the pruning loop keeps exactly the recent times |
| LogViewer.RateLimiter.Allow | logz/web/main.go:485-513 | the answer is the admission decision for the client, and only that client's times change, to what the decision leaves |
| LogViewer.CacheKeyText | logz/web/main.go:357 | the key as written starts with the path and ':' and ends with ':' and the search |
| LogViewer.CacheKeyTextCollides | logz/web/main.go:357 | two different requests, for files "a" and "a:1000:0:s", share a key as written |
| LogViewer.CollidingRequestServedOtherPage | logz/web/main.go:357-366 | as written, once the first of two colliding requests has its page stored, the second hits and is served that page |
| LogViewer.StoreServesOnlyItsRequest | logz/web/main.go:358-381 | corrected cache (see Findings): with four-part keys, storing one request's page never changes another request's hit or what it is served |
| LogViewer.Expire | logz/web/main.go:586-590 | cleanup keeps exactly the entries whose expiry `now` is not after, unchanged |
| LogViewer.CleanupKeepsHits | logz/web/main.go:358-366 | cleanup never removes an entry that would be a hit at that time or later, and never creates a hit |
| LogViewer.ExpireKeepsPages | logz/web/main.go:586-590 | after cleanup every remaining cached page is still the page of the request that stored its key |
| LogViewer.WebServer.constructor | logz/web/main.go:54-62 | a server starts with an empty cache |
| LogViewer.WebServer.ReadLogFile | logz/web/main.go:354-382 | the key is the path, limit, offset and search joined with ':'; a hit answers from the cache and changes nothing, with the page of the request that stored the key; a miss reads the page and caches it under the key for five minutes with the modification time; a failed read caches nothing; the answer fits the request unless its key was stored by a different request |
| LogViewer.WebServer.DeleteExpired | logz/web/main.go:586-590 | the loop over the cache deletes exactly the entries that `now` is past the expiry of, and keeps the rest unchanged |
| LogViewer.WebServer.CacheCleanup | logz/web/main.go:577-597 | one tick deletes exactly the entries that `now` is past the expiry of |
| LogViewer.WebServer.GetLogContent | logz/web/main.go:223-265 | a name with ".." or '/' is refused before any file access and changes nothing; otherwise there is an answer exactly when the string key hits the cache or the file could be read: on a hit the cached lines and total with the cache unchanged, on a miss the page of the file and its line count with that page stored under the key for five minutes, with the defaulted paging; the page has at most `limit` lines, each matching the search, unless its key was cached by a different request |

## Left out

**Files, storage and libraries.**

- File-system and database I/O are inputs. `os.Open`, `Stat`, `Glob`, `Remove`, the bbolt
  transactions and the seek in `readLogEntry` appear as parameters: a file's lines, a
  modification time, a size, a success flag, or a read function.
- The library calls are parameters too: `json.Marshal` (as the length of its output),
  `json.Unmarshal`, `regexp.MatchString`, `time.Parse` and `time.Format`.
- gzip compression, `cleanupOldFiles`, `compressFile`, `GetLogStats` and `CleanupOldLogs` are
  not modelled. They are loops of file-system calls and decide nothing the model could state.
- `filepath.Join` is the directory, '/' and the name. Path cleaning is not modelled.
- The scanner's limit on line length is not modelled. The model treats an error in the middle
  of a file as the file being unreadable.
- The HTTP layer is not modelled: routing, JSON responses, the CORS, gzip and logging
  middleware, templates, upload and the log stream. Neither is `http_client.go`, whose
  choice between root and child reduces to `CreateChildSpan`.
- The propagator's `Inject` is the headers it writes, the `injected` argument of
  `HttpTrace.SetTraceContextToHttpHeader`; what the W3C propagator writes is not modelled.
- The OpenTelemetry tracer and exporter calls are success flags. So are gomail's
  dialling, the logrus formatters and hooks (including the conversion in `AggregatorHook.Fire`)
  and `crypto/rand`.

**Concurrency and time.**

- Concurrency is not modelled: the index workers, the flush and maintenance tickers,
  channels, mutexes and the e-mail goroutine. Also left out:
  - the `indexQueue` send, which drops the entry when the queue is full (the model queues every entry);
  - the order in which two index workers may apply updates (the model applies the queue in order);
  - in `Close`, the cancelled context that can make the final `flushBatch` stop early
    (the model runs the whole flush).
- The wall clock is an input. `shouldRotate` is the `rotate` argument, which says whether to
  rotate and which file opens next. A request's `now` stands for both the time of the cache
  check and the time the cache entry is stored.

**Numbers and text.**

- `strings.ToLower` and `strings.EqualFold` fold ASCII letters only.
- Offsets are unbounded integers, so the int64 overflow of `currentOffset` is not modelled.
- Floating point is left out: `formatFileSize` for 1024 bytes and more, and a NaN sampling
  ratio, which `Validate` would let through because every comparison with NaN is false.
  `FixedRatio` and `ValidateFields` take the ratio as a `real`.

**Weaker contracts and missing operations.**

- LogQuery.QueryWithFileScan: requires a non-negative limit and offset. In the code, an
  offset at or past the number of matches gives an empty page whatever the limit. Otherwise a
  negative offset, or a negative limit that puts `end` before the offset, makes the slice
  expression panic. The model covers neither the empty page for a negative limit nor the panics.
- LogIndex.QueryLogs: requires the same, although the index path itself never pages.
- Aggregator.LogAggregator.WriteLog: does not model a failed `Marshal`, a failed `OpenFile` or
  a failed write to an open file. The only failures modelled are the closed aggregator, the
  rotation (which always fails, see Findings) and writes to the file that rotation closed.
- Aggregator.LogAggregator.FlushBatch: on a closed file the first line too long for the
  writer's free room fails; how much of that line `bufio.Writer` copies before it fails is not
  modelled, since none of it reaches the file.
- Aggregator.LogAggregator.RotateFile: does not model `cleanupOldFiles` or the compression of
  the old file, and not `lastRotation`, which the failed rotation never updates; so
  `shouldRotate` stays the `rotate` argument after it.
- LogViewer.WebServer.ReadLogFile: promises that the page fits the request only when the key
  was not stored by a different request. A key stored by a colliding request (see Findings)
  serves that request's page, bounded only by that request's limit and search.
- LogViewer.WebServer.GetLogContent: promises the page's length and search bound under the
  same condition, for the same reason.
- HttpTrace.SetTraceContextToHttpHeader: promises the round trip only when the propagator
  writes none of the three trace keys, because `injected` is arbitrary.
- LogViewer.WebServer.ReadLogFile: `storedModTime` stands for the `Stat` after the read. When
  that `Stat` fails, Go would dereference a nil value. The model does not capture that panic.
- `SetTraceContextToHttpHeader` and `GetTraceContextFromHttpHeader` go through Go's
  canonical header keys. `HttpTrace.CanonicalHeaderKey` models that canonicalisation for
  token characters only.

## Findings

| source | as written | input that shows it | evidently intended | confidence | as-written member | corrected member |
|---|---|---|---|---|---|---|
| logz/file.go:270-336 | `WriteLog` stamps an entry with `currentOffset` when it is buffered, and only `flushBatch` advances `currentOffset`. So every entry of one batch records the offset of the batch's first line, and that is what the index stores. | Two buffered entries with different trace ids, flushed together. A lookup by the second entry's trace id reads at the first line and returns the first entry. | Each entry records the byte offset where its own line starts, so that an index lookup reads back the entry filed under the key. | not executed | Aggregator.AsWrittenLookupReturnsOtherTrace | Aggregator.IndexedEntryReadsBack |
| logz/web/main.go:357 | The cache key is the path, limit, offset and search joined with ':'. File names and searches may contain ':', so two different requests can share a key. | File "a" searched for "s:1000:0:", then file "a:1000:0:s" with no search, both with limit 1000 and offset 0. They share a key. Once the first page is cached, the second request is served it, for five minutes and while a `Stat` of the second file succeeds and reports a modification time not after the one recorded. | A key that keeps the four parts of a request apart. | not executed | LogViewer.CollidingRequestServedOtherPage | LogViewer.StoreServesOnlyItsRequest |
| logz/file.go:418-448 | `rotateFile` closes `aggregateFile` but leaves the field set. `initializeFile` then closes the same file again (file.go:208-212), which fails, and so returns before the new file id is set and the new file opened. | Any `WriteLog` for which `shouldRotate` holds. The buffer is flushed, the call fails, and the closed old file stays current; later flushes fail on it. | The old file closed once, and the new file opened and current. | not executed | Aggregator.LogAggregator.RotateFile | Aggregator.LogAggregator.RotateFileCorrected |

The first row runs through these members:

- The as-written stamping is `Aggregator.FlushedAsWritten`, and `Aggregator.FlushedAsWrittenMisplaces` shows the misplaced offset.
- `Aggregator.LogAggregator.FlushBatch` writes the buffer unchanged, as the code does, and `WriteLog`, `RotateFile` and `Close` use it. `Aggregator.BufferFlushedAsWritten` ties what it writes to `Aggregator.FlushedAsWritten`.
- The corrected flush is `Aggregator.LogAggregator.FlushBatchStamped`, with the loop `Aggregator.WriteLinesStamped`. It stamps each entry with its line start as it writes it (`Aggregator.StampedAtLineStarts`), and `Aggregator.IndexedEntryReadsBack` proves the lookup for such lines.
- The class invariant holds under both flushes: no line records an offset past its own start.

For the second row:

- `LogViewer.WebServer` keys its cache by the text `LogViewer.CacheKeyText`, as the code does. `LogViewer.CacheKeyTextCollides` shows two requests sharing a key.
- The ghost map `storedBy` records which request stored each key. `ReadLogFile` promises that a page fits the request only when the request stored that key itself.
- The corrected key is the datatype `LogViewer.CacheKey`, for which `LogViewer.StoreServesOnlyItsRequest` holds.

For the third row:

- `Aggregator.LogAggregator.RotateFile` is the rotation as written: it ensures that it fails, that the file is closed, and that the id, start and offset are those of the old file. `WriteLog` calls it when it rotates, and then fails.
- The class records `fileOpen` and `writerFailed`. `FlushBatch` and `InitializeFile` say what happens on a closed file: a non-empty flush fails, and `InitializeFile` fails.
- `Aggregator.LogAggregator.RotateFileCorrected` clears the file after the close, so that `InitializeFile` closes it only once. From an open file it succeeds and makes the new file current.

Two further behaviours of the code are stated as they stand, and the model does not change them:

- Deleting a file goes through a check that only rejects ".." and '/' (logz/web/api.go:537-550). `validateFilename` also rejects the empty name and '\\'. `WebApi.DeleteCheckWeaker` shows both gaps.
- The message is validated before it is trimmed: a message of spaces is accepted and then stored empty (`WebApi.BlankMessageStoredEmpty`).
