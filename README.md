# libdatadog core logic in Dafny

This project models five small pieces of sequential logic from libdatadog, Datadog's shared Rust library for tracers and profilers, and proves properties about them.

- **DogStatsD ingestion** (`Dogstatsd`). A datagram is read, either from a UDP buffer of 8192 bytes or from a mirror reader used in tests. Its payload is split into lines on line feed. Empty lines, service checks (`_sc|`) and events (`_e{`) are dropped. Each remaining line goes to the metric parser, and a line that fails to parse is skipped. The metrics that parse are inserted into the shared aggregator in line order, under a single acquisition of its lock, and only when there is at least one. The `spin` loop consumes datagrams until its cancellation token is seen cancelled after an iteration.
  - The parser is an arbitrary function `parse: string -> Result<M, E>`.
  - The aggregator is a class that records every insert, counts lock acquisitions, and may reject an insert.
- **Tracer header tags** (`TracerHeaderTags`). These convert between a tracer's tags and HTTP headers.
  - Tags to header map: the six `datadog-meta-*` / `datadog-container-id` headers, keeping only the non-empty ones.
  - Header map to tags: copies each present, convertible header, and sets each of the two `datadog-client-computed-*` flags when its header is present.
- **pprof to API profile** (`Pprof`, `ProfileApi`). This resolves a pprof profile into API values.
  - Strings come from the string table, indexed by an `i64` id read as a `u64`; `usize` is taken to be 64 bits wide.
  - Mappings, functions and locations are found by the first entry with that id. Id 0 means the default value.
  - In labels, a string index of 0 means "absent".
  - It also models the label validator and the upscaling validator.
- **Profile replayer** (`ProfilingReplayer`). This does the same resolution through a profile index, plus the signed-nanosecond time arithmetic.
  - For each sample it extracts an endpoint from the first "local root span id" label and the first "trace endpoint" label.
  - It then removes every "trace endpoint" label from the sample.
- **Trace exporter C interface** (`TraceExporterFfi`, `Utf8`). This covers the configuration object and its defaults, and the nine string setters.
  - A setter rejects an absent handle with `InvalidArgument` and a slice that is not UTF-8 (section 4 of RFC 3629) with `InvalidInput`. Otherwise it writes exactly its own field.
  - It also covers the absent-handle check of `ddog_trace_exporter_send`.

Helper modules:
- `Wrappers`: `Option`, `Result`.
- `Seqs`: `Filter`, `FindFirst`, and `MapAll`. `MapAll` maps a partial function over a sequence and stops at the first failure.
- `Ints`: 64-bit integer types and the `as u64` reinterpretation. `usize` is taken to be 64 bits wide, so `as usize` on a `u64` is the identity.

In libdatadog, the `for` loops that push into a `Vec` are modelled as methods with loops. Each such method is proved equal to a function built on `MapAll`, and the function's contract states what the result means.

Where the comment at `profiling-replayer/src/replayer.rs:120` ("Remove all labels except trace endpoint") contradicts the code on line 121, the model follows the code: it removes the "trace endpoint" labels and keeps all the others.

## Model

| member | source | states |
|---|---|---|
| Seqs.Filter | dogstatsd/src/dogstatsd.rs:90 | the kept elements satisfy the predicate, and appear in the input |
| Seqs.FilterAppend | dogstatsd/src/dogstatsd.rs:89-99 | filtering distributes over concatenation |
| Seqs.FilterAll | dogstatsd/src/dogstatsd.rs:90 | a sequence whose every element passes is kept whole |
| Seqs.FilterNone | dogstatsd/src/dogstatsd.rs:90 | a sequence whose every element fails is dropped entirely |
| Seqs.FindFirst | profiling/src/profile/api.rs:215 | `Iterator::find`: `None` iff no element matches, otherwise the index of a match with no match before it |
| Seqs.FindFirstIsFirst | profiling/src/profile/api.rs:215 | the index of the first match is what `FindFirst` returns |
| Seqs.MapAll | profiling/src/profile/api.rs:243-255 | collecting a `?`-loop: success iff every element succeeds, then one output per input in order; otherwise the error of the first failing element |
| Seqs.MapAllPrefixFailure | profiling/src/profile/api.rs:248-253 | a failure on a prefix is the failure of the whole sequence |
| Seqs.MapAllExtends | profiling/src/profile/api.rs:248-253 | one more successful element appends its value |
| Seqs.MapAllFailsAt | profiling/src/profile/api.rs:248-253 | the first failing element decides the result of the whole sequence |
| Seqs.Somes | profiling-replayer/src/replayer.rs:208-210 | the payloads of the `Some` entries: never more than the entries, each from some entry, every present one collected |
| Ints.AsU64 | profiling/src/profile/api.rs:206 | `id as u64`: the same value for a non-negative id, the value plus 2^64 for a negative one |
| Ints.UnsignedAbs | profiling-replayer/src/replayer.rs:24 | `i64::unsigned_abs` is the magnitude, as a `u64` |
| Utf8.HeadLength | data-pipeline-ffi/src/trace_exporter.rs:23 | the length of the well-formed character at the head, at most 4 and never past the end |
| Utf8.HeadScalar | data-pipeline-ffi/src/trace_exporter.rs:23 | a decoded character is a Unicode scalar value in the range its length allows (no overlong forms) |
| Utf8.Decode | data-pipeline-ffi/src/trace_exporter.rs:23 | a decoded string is never longer than its bytes and is empty iff they are; its first character is the scalar at the head; a malformed head is rejected |
| Utf8.DecodeEncodeChar | data-pipeline-ffi/src/trace_exporter.rs:23 | decoding the encoding of a character consumes exactly its bytes and yields it back |
| Utf8.EncodeHeadScalar | data-pipeline-ffi/src/trace_exporter.rs:23 | re-encoding a decoded head character reproduces exactly its bytes |
| Utf8.DecodeEncode | data-pipeline-ffi/src/trace_exporter.rs:22-29 | every string's encoding is valid and decodes back to it |
| Utf8.EncodeDecode | data-pipeline-ffi/src/trace_exporter.rs:22-29 | the string decoded from a valid slice encodes back to exactly that slice |
| Utf8.RejectsStrayContinuation | data-pipeline-ffi/src/trace_exporter.rs:601-609 | a slice that starts with a continuation byte is not valid UTF-8 |
| Dogstatsd.Read | dogstatsd/src/dogstatsd.rs:31-46 | the mirror reader returns its stored bytes and address on every read; the UDP reader returns at most 8192 bytes, a prefix of the datagram, all of it when it fits, with its origin |
| Dogstatsd.Split | dogstatsd/src/dogstatsd.rs:84 | `split('\n')` yields at least one piece, and no piece contains the separator |
| Dogstatsd.JoinSplit | dogstatsd/src/dogstatsd.rs:84 | splitting loses nothing: joining the pieces with the separator gives the payload back |
| Dogstatsd.SplitWithoutSeparator | dogstatsd/src/dogstatsd.rs:84 | a payload without a line feed is one piece |
| Dogstatsd.SplitAtSeparator | dogstatsd/src/dogstatsd.rs:84 | a line feed after a separator-free prefix ends that prefix's piece |
| Dogstatsd.StartsWith | dogstatsd/src/dogstatsd.rs:90 | `starts_with` is the sequence-prefix relation |
| Dogstatsd.IsCandidate | dogstatsd/src/dogstatsd.rs:90 | a candidate is non-empty and starts with neither the service-check prefix nor the event prefix `_e{`; any non-empty line not starting with `_` is one |
| Dogstatsd.RemoveNewlines | dogstatsd/src/dogstatsd.rs:91 | `replace('\n', "")` leaves no line feed and never lengthens the line |
| Dogstatsd.RemoveNewlinesIdentity | dogstatsd/src/dogstatsd.rs:91 | on a line without a line feed the replacement is the identity |
| Dogstatsd.ParseInputs | dogstatsd/src/dogstatsd.rs:90-91 | no more lines reach the parser than the payload has |
| Dogstatsd.Parsed | dogstatsd/src/dogstatsd.rs:92-98 | the `filter_map` keeps at most one metric per input, and one per input when every input parses |
| Dogstatsd.ParsedProvenance | dogstatsd/src/dogstatsd.rs:92-98 | every kept metric is what the parser returned for one of the inputs |
| Dogstatsd.ValidMetrics | dogstatsd/src/dogstatsd.rs:89-99 | no more metrics are collected than the payload has lines |
| Dogstatsd.ValidMetricsProvenance | dogstatsd/src/dogstatsd.rs:89-99 | every collected metric is what the parser returned for a candidate line, newlines removed |
| Dogstatsd.ValidMetricsFilterThenParse | dogstatsd/src/dogstatsd.rs:89-99 | the collected metrics are exactly the successful parses of the filtered lines, in line order |
| Dogstatsd.ParseInputsOfSplitLines | dogstatsd/src/dogstatsd.rs:84-91 | on pieces of a payload split on line feed, the parser sees exactly the candidate lines, unchanged |
| Dogstatsd.SplitPiecesReachParserUnchanged | dogstatsd/src/dogstatsd.rs:84-91 | the same, for the pieces of any payload |
| Dogstatsd.NothingFilteredIsParsed | dogstatsd/src/dogstatsd.rs:90 | no empty line, service check or event is ever handed to the parser |
| Dogstatsd.ParsedAppend | dogstatsd/src/dogstatsd.rs:92-99 | the metrics of two runs of lines are each run's metrics, in order |
| Dogstatsd.FailedParseDropsOnlyThatLine | dogstatsd/src/dogstatsd.rs:92-99 | a line that fails to parse is dropped without affecting the lines around it |
| Dogstatsd.ParsedLineKeepsItsPlace | dogstatsd/src/dogstatsd.rs:92-99 | a line that parses contributes its metric at its own position |
| Dogstatsd.ParsedEmpty | dogstatsd/src/dogstatsd.rs:92-100 | nothing is collected iff every line fails to parse |
| Dogstatsd.ServiceCheckIsNotParsed | dogstatsd/src/dogstatsd.rs:193-200 | a lone service check line reaches the parser as nothing |
| Dogstatsd.EventIsNotParsed | dogstatsd/src/dogstatsd.rs:205-212 | a lone event line reaches the parser as nothing |
| Dogstatsd.ThreeLinePayload | dogstatsd/src/dogstatsd.rs:158-174 | three newline-terminated metric lines reach the parser as exactly those three lines, in order; the trailing empty piece is dropped |
| Dogstatsd.SpinIterations | dogstatsd/src/dogstatsd.rs:68-74 | the number of iterations is at least one and ends at the first iteration after which the token is cancelled |
| Dogstatsd.Aggregator.Lock | dogstatsd/src/dogstatsd.rs:101 | taking the lock holds it, counts one acquisition, and leaves the inserts alone |
| Dogstatsd.Aggregator.Unlock | dogstatsd/src/dogstatsd.rs:101-105 | dropping the guard at the end of the block releases the lock and changes nothing else |
| Dogstatsd.Aggregator.Insert | dogstatsd/src/dogstatsd.rs:103 | an insert is recorded whatever its outcome, and the lock stays held |
| Dogstatsd.DogStatsD.InsertMetrics | dogstatsd/src/dogstatsd.rs:88-106 | every collected metric is inserted exactly once, in order, rejected inserts included; the lock is taken once iff at least one metric parsed, and released afterwards |
| Dogstatsd.DogStatsD.ConsumeStatsd | dogstatsd/src/dogstatsd.rs:76-86 | one read, decoded as UTF-8 and split on line feed, contributes its metrics to the aggregator |
| Dogstatsd.DogStatsD.Spin | dogstatsd/src/dogstatsd.rs:68-74 | the loop consumes exactly `SpinIterations` datagrams, at least one, and the aggregator receives their metrics in arrival order, with one lock acquisition per datagram that yields a metric |
| TracerHeaderTags.HeaderKeysDistinct | trace-utils/src/tracer_header_tags.rs:42-55 | the six header names are pairwise distinct, and neither flag header is one of them |
| TracerHeaderTags.AllHeaders | trace-utils/src/tracer_header_tags.rs:42-55 | the map before `retain` holds every field under its header name, and nothing else |
| TracerHeaderTags.RetainNonEmpty | trace-utils/src/tracer_header_tags.rs:56 | `retain` with `!v.is_empty()` keeps exactly the entries with a non-empty value, unchanged |
| TracerHeaderTags.HeadersOf | trace-utils/src/tracer_header_tags.rs:40-58 | a header is present iff its field is non-empty, and then carries that field; keys come only from the six names; no flag header appears |
| TracerHeaderTags.ToHashMap | trace-utils/src/tracer_header_tags.rs:40-58 | the in-place build-then-retain computes `HeadersOf` |
| TracerHeaderTags.AllFieldsGiveSixHeaders | trace-utils/src/tracer_header_tags.rs:91-112 | with every field set, the map has six entries |
| TracerHeaderTags.EmptyContainerIdGivesFiveHeaders | trace-utils/src/tracer_header_tags.rs:114-135 | with only the container id empty, the map has five entries and no container header |
| TracerHeaderTags.TagsOf | trace-utils/src/tracer_header_tags.rs:61-83 | each string field is its header's value when present and convertible, `""` otherwise; each flag is set iff its header is present |
| TracerHeaderTags.StringHeader | trace-utils/src/tracer_header_tags.rs:15-16 | a header's string is present only when the name is in the map and `to_str` succeeds on its value, and then it is that string |
| TracerHeaderTags.ParseStringHeader | trace-utils/src/tracer_header_tags.rs:15-19 | one macro arm sets its field to a present, convertible header's value, and leaves every field alone otherwise |
| TracerHeaderTags.FromHeaderMap | trace-utils/src/tracer_header_tags.rs:61-83 | field-by-field assignment from the defaults computes `TagsOf` |
| TracerHeaderTags.RoundTrip | trace-utils/src/tracer_header_tags.rs:42-74 | tags to headers and back restores every string field, empty ones as `""`, and clears both flags |
| TracerHeaderTags.FlagsIgnoreValues | trace-utils/src/tracer_header_tags.rs:75-80 | the flags depend on which headers are present, not on their values |
| ProfileApi.UsesAtMostOneOfStrAndNum | profiling/src/profile/api.rs:114-116 | true iff the label does not carry both a string and a number (a non-zero `num` or a unit) |
| ProfileApi.UsesAtMostOneExamples | profiling/src/profile/api.rs:360-408 | the verdicts on the six labels of the unit test |
| ProfileApi.CheckValidity | profiling/src/profile/api.rs:169-192 | Poisson is valid iff both offsets are below the number of values and the sampling distance is non-zero, with the offsets checked first; Proportional is always valid |
| ProfileApi.StringTableFetch | profiling/src/profile/api.rs:203-208 | succeeds iff the id, read as unsigned (`as u64`, with a 64-bit `usize`), indexes the table, and returns that entry; otherwise `StringNotFound(id)` |
| ProfileApi.StringIdSign | profiling/src/profile/api.rs:206 | a non-negative id is a plain index; a negative id never indexes a table of at most 2^63 entries |
| ProfileApi.ResolveMapping | profiling/src/profile/api.rs:216-222 | a mapping resolves iff both its strings do, with its numbers copied; the file name is fetched first |
| ProfileApi.MappingFetch | profiling/src/profile/api.rs:210-225 | id 0 gives the default mapping; no match gives `MappingNotFound`; otherwise the first matching mapping, resolved |
| ProfileApi.ResolveFunction | profiling/src/profile/api.rs:233-238 | a function resolves iff its three strings do, with its start line copied; the name is fetched first |
| ProfileApi.FunctionFetch | profiling/src/profile/api.rs:227-241 | id 0 gives the default function; no match gives `FunctionNotFound`; otherwise the first matching function, resolved |
| ProfileApi.ResolveLine | profiling/src/profile/api.rs:249-252 | a line resolves iff its function does, with its line number copied |
| ProfileApi.LinesFetch | profiling/src/profile/api.rs:243-255 | one line per input line, in order, or the first failure |
| ProfileApi.ResolveLocation | profiling/src/profile/api.rs:263-268 | a location resolves iff its mapping and all its lines do, the mapping first; address and folding copied |
| ProfileApi.LocationFetch | profiling/src/profile/api.rs:257-271 | id 0 gives the default location; no match gives `LocationNotFound`; otherwise the first matching location, resolved |
| ProfileApi.LocationsFetch | profiling/src/profile/api.rs:273-283 | one location per id, in order, or the first failure |
| ProfileApi.ResolveValueType | profiling/src/profile/api.rs:310-313 | a value type resolves iff its type and unit strings do |
| ProfileApi.OptionalString | profiling/src/profile/api.rs:324-334 | index 0 is `None`; any other index is `Some` of the fetched string, or its error |
| ProfileApi.ResolveLabel | profiling/src/profile/api.rs:321-335 | the key is fetched; `str` and `num_unit` are `None` iff their index is 0, otherwise the fetched string; `num` is copied |
| ProfileApi.LabelsFetch | profiling/src/profile/api.rs:320-336 | the label loop of `try_from` decodes every label in order, or stops at the first failure |
| ProfileApi.ResolveSample | profiling/src/profile/api.rs:317-342 | a sample resolves iff its locations and labels do; values copied verbatim; the locations are exactly `LocationFetch` of each id and the labels exactly `ResolveLabel` of each label, in order |
| ProfileApi.StartTime | profiling/src/profile/api.rs:291-295 | the epoch moved by the signed `time_nanos` is `time_nanos` nanoseconds |
| ProfileApi.ResolvePeriod | profiling/src/profile/api.rs:297-306 | the period is `None` iff there is no period type, otherwise `period` with its resolved type |
| ProfileApi.ProfileOf | profiling/src/profile/api.rs:288-352 | success iff period, every sample type and every sample resolve; then the period is `ResolvePeriod`'s (its resolved value type and `period`), the sample types are exactly `ResolveValueType` of each pprof sample type in order, one sample per pprof sample in order equal to `ResolveSample` of it with values copied, duration and start time from the nanosecond fields |
| ProfileApi.TryFrom | profiling/src/profile/api.rs:285-353 | the loops of `try_from` compute `ProfileOf` |
| ProfilingReplayer.GetString | profiling-replayer/src/replayer.rs:52-53 | an index string lookup succeeds iff the id is indexed |
| ProfilingReplayer.SystemTimeAdd | profiling-replayer/src/replayer.rs:22-30 | adding signed `ns` nanoseconds is `t + ns`; a negative amount subtracts its magnitude |
| ProfilingReplayer.StartTime | profiling-replayer/src/replayer.rs:32-34 | the start time is `time_nanos` after the epoch |
| ProfilingReplayer.Duration | profiling-replayer/src/replayer.rs:36-44 | fails iff `duration_nanos` is negative, otherwise that many nanoseconds |
| ProfilingReplayer.GetValueType | profiling-replayer/src/replayer.rs:51-54 | a sample type resolves iff its type and unit are indexed |
| ProfilingReplayer.SampleTypes | profiling-replayer/src/replayer.rs:46-57 | one value type per pprof sample type, in order, or the first failure |
| ProfilingReplayer.PeriodOf | profiling-replayer/src/replayer.rs:59-74 | the period is `Some` iff there is a period type, and then carries `pprof.period` as its value |
| ProfilingReplayer.GetOptionalString | profiling-replayer/src/replayer.rs:84-94 | index 0 is `None`; any other index is `Some` of its string, or an error |
| ProfilingReplayer.GetLabel | profiling-replayer/src/replayer.rs:82-95 | key fetched, `str` and `num_unit` absent iff their index is 0, `num` copied |
| ProfilingReplayer.EndpointOf | profiling-replayer/src/replayer.rs:97-118 | no endpoint unless both labels exist; otherwise, from the first of each, an error when the id's bits are zero, another when the endpoint label has no string, else the pair |
| ProfilingReplayer.SampleLabelsOf | profiling-replayer/src/replayer.rs:76-124 | success iff every label decodes and the endpoint check passes; then the decoded labels other than "trace endpoint", in order, with the endpoint |
| ProfilingReplayer.SampleLabelsDropOnlyEndpoints | profiling-replayer/src/replayer.rs:120-121 | no "trace endpoint" label is kept, and every other decoded label is |
| ProfilingReplayer.SampleLabels | profiling-replayer/src/replayer.rs:76-124 | the push loop, the two `find`s and `retain` compute `SampleLabelsOf` |
| ProfilingReplayer.GetMapping | profiling-replayer/src/replayer.rs:126-138 | a mapping resolves iff it is indexed and both its strings are, with its numbers copied |
| ProfilingReplayer.GetFunction | profiling-replayer/src/replayer.rs:168-179 | a function resolves iff it is indexed and its three strings are, with its start line copied |
| ProfilingReplayer.GetLine | profiling-replayer/src/replayer.rs:140-148 | a line resolves iff its function does, with the line number copied |
| ProfilingReplayer.LocationOf | profiling-replayer/src/replayer.rs:150-166 | a location resolves iff it is indexed, its mapping resolves and all its lines do; the lines are exactly `GetLine` of each pprof line, in order; mapping resolved, address and folding copied |
| ProfilingReplayer.GetLocation | profiling-replayer/src/replayer.rs:150-166 | the lookup and the line loop compute `LocationOf` |
| ProfilingReplayer.SampleLocations | profiling-replayer/src/replayer.rs:181-190 | one location per location id, in order, or the first failure |
| ProfilingReplayer.SampleEntry | profiling-replayer/src/replayer.rs:202-207 | a sample reads back iff its labels and then its locations do; values copied |
| ProfilingReplayer.SamplesPart | profiling-replayer/src/replayer.rs:203-207 | one sample per entry, in order |
| ProfilingReplayer.EndpointsPart | profiling-replayer/src/replayer.rs:208-210 | the endpoints present, never more than the entries, each one present in some entry and every present one collected |
| ProfilingReplayer.EndpointsInOrder | profiling-replayer/src/replayer.rs:208-210 | the endpoints are exactly the present endpoints of the entries, in sample order |
| ProfilingReplayer.SamplesOf | profiling-replayer/src/replayer.rs:192-214 | success iff every sample reads back; then one API sample per pprof sample, in order, values copied, and the endpoints are exactly the present per-sample endpoints, in sample order |
| ProfilingReplayer.Samples | profiling-replayer/src/replayer.rs:192-214 | the sample loop computes `SamplesOf` |
| ProfilingReplayer.ReplayerOf | profiling-replayer/src/replayer.rs:217-240 | a failed index is the error; given an index, success iff the duration is non-negative and the sample types, the period and the samples all read back; then `end_time = start_time + duration`, and the sample types, period, samples and endpoints are exactly those of `MapAll`, `PeriodOf` and `SamplesOf` on that index |
| ProfilingReplayer.TryFrom | profiling-replayer/src/replayer.rs:220-240 | the sequence of `?` steps computes `ReplayerOf` |
| TraceExporterFfi.SanitizeString | data-pipeline-ffi/src/trace_exporter.rs:22-29 | succeeds iff the slice is valid UTF-8, and the string returned has exactly the slice's bytes; otherwise `InvalidInput` |
| TraceExporterFfi.SanitizeAcceptsEveryString | data-pipeline-ffi/src/trace_exporter.rs:22-29 | the encoding of any string is accepted and gives that string back |
| TraceExporterFfi.SanitizeRejectsStrayContinuation | data-pipeline-ffi/src/trace_exporter.rs:601-609 | the slice `[0x80, 0xFF]` is rejected with `InvalidInput` |
| TraceExporterFfi.TraceExporterConfig.constructor | data-pipeline-ffi/src/trace_exporter.rs:35-58 | a new configuration has no string field set, both formats V04 and stats off |
| TraceExporterFfi.SetterError | data-pipeline-ffi/src/trace_exporter.rs:72-80 | an absent handle gives `InvalidArgument`; otherwise no error iff the slice is valid UTF-8, else `InvalidInput` |
| TraceExporterFfi.SetUrl | data-pipeline-ffi/src/trace_exporter.rs:66-81 | returns `SetterError`; on success only `url` changes, to the decoded slice; on error nothing changes |
| TraceExporterFfi.SetTracerVersion | data-pipeline-ffi/src/trace_exporter.rs:83-98 | the same, for `tracer_version` |
| TraceExporterFfi.SetLanguage | data-pipeline-ffi/src/trace_exporter.rs:100-115 | the same, for `language` |
| TraceExporterFfi.SetLangVersion | data-pipeline-ffi/src/trace_exporter.rs:117-132 | the same, for `language_version` |
| TraceExporterFfi.SetLangInterpreter | data-pipeline-ffi/src/trace_exporter.rs:134-149 | the same, for `language_interpreter` |
| TraceExporterFfi.SetHostname | data-pipeline-ffi/src/trace_exporter.rs:151-166 | the same, for `hostname` |
| TraceExporterFfi.SetEnv | data-pipeline-ffi/src/trace_exporter.rs:168-183 | the same, for `env` |
| TraceExporterFfi.SetVersion | data-pipeline-ffi/src/trace_exporter.rs:185-199 | the same, for `version` |
| TraceExporterFfi.SetService | data-pipeline-ffi/src/trace_exporter.rs:201-216 | the same, for `service` |
| TraceExporterFfi.Send | data-pipeline-ffi/src/trace_exporter.rs:287-314 | an absent handle gives `InvalidArgument`; otherwise the payload is handed to the exporter and its outcome returned |
| TraceExporterFfi.ConfigureUrl | data-pipeline-ffi/src/trace_exporter.rs:357-366 | a default configuration given a valid URL has exactly that URL set and nothing else |

## Left out

- UDP socket binding and `recv_from` (`DogStatsD::new`, the socket arm of `BufferReader::read`) are I/O. The datagram the socket would receive is a parameter of the read.
- The tokio `CancellationToken` is a sequence of booleans, one observed after each iteration.
- The `Arc<Mutex>` around the aggregator is concurrency: the model keeps only the acquisition count and the held state. Lock poisoning is not modelled.
- ConsumeStatsd: a payload that is not UTF-8 makes `consume_statsd` panic on its `expect`; the model requires a valid payload instead (the `Readable` precondition, also on `Spin`). `BufferReader::read` cannot fail in the model, so the panic on a failed read is not modelled.
- Spin: only runs that end are modelled. It requires that the token is seen cancelled after some iteration (as does `SpinIterations`). A `spin` whose token is never cancelled loops forever, and that run is not modelled.
- ProfileApi.ProfileOf: `requires durationNanos >= 0` stands for the `assert!` at the head of `try_from`, which panics on a negative duration; the panic is not modelled as a result.
- ProfileApi.TryFrom: the same precondition, for the same `assert!`.
- ProfileApi.StringTableFetch: `usize` is taken to be 64 bits, so `id as u64 as usize` is `AsU64(id)`. On a 32-bit target the cast to `usize` keeps only the low 32 bits (id 2^32 would then fetch entry 0); that truncation is not modelled.
- The `error!` log of a line that fails to parse and the `debug!` log of each payload are logging: the failed line is just dropped.
- An HTTP `HeaderMap` may hold several values under one name, and `get` returns the first. The header map is a `map` from names to one value each, so only that first value is modelled.
- The metric parser (`crate::metric::parse`) and the aggregator's internals (`crate::aggregator`) are not part of this model. The parser is an arbitrary function. The aggregator records inserts in order, and a parameter `rejects` decides which inserts fail. Capacity bounds, value merging, sketches and floating-point values are not modelled.
- `HeaderValue::to_str` (ASCII-only conversion) is the function parameter `toStr`. HTTP header-name case-insensitivity and the serde derives are not modelled.
- `ProfileIndex` is not part of this model. It is taken as four partial maps over its profile. Whether `ProfileIndex::try_from` succeeds is a parameter of the replayer's `TryFrom`.
- `UpscalingInfo::Proportional { scale: f64 }` is a float, so the model keeps only the variant. The `Display` implementation is formatting.
- `SystemTime` and `Duration` are integer nanoseconds since the Unix epoch: the model has no clock and no overflow of `SystemTime` arithmetic.
- Error values carry their kind and the offending id, not the formatted messages of `anyhow`.
- `ddog_trace_exporter_new`, the exporter builder and its URL validation are not part of this model; neither is the network send. `ddog_trace_exporter_send` keeps only its absent-handle check, and the exporter's send outcome is a parameter.
- The `AgentResponse` out-parameter (a float rate) is not modelled.
- `Box`/`NonNull` handle allocation and the `*_free` functions are FFI memory management. The error's message string is not modelled, only its code.
- spawn_worker/tests/trampoline_unix.rs (process spawning) and crashtracker-ffi/src/lib.rs (module declarations only) hold no logic of the modelled core.
