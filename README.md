# roomler-ai server core, modelled and proved in Dafny

This project models the deterministic core of the roomler-ai server and its transcription
crate. It covers three groups.

The transcription crate:
- the transcript text utilities: word error rate, and the SubRip and plain-text
  reference-transcript parsers;
- the control logic of the live worker and of file playback;
- the engine's registry of workers, room models, broadcasts and playbacks;
- the remote speech-recognition backend's request and response handling.

The API crate:
- the WebSocket connection registry and the pure decisions of the WebSocket handler;
- the error type and its HTTP mapping;
- the invite and message endpoints.

The services crate:
- the invite, room, user, notification and role stores;
- the OAuth service.

Each Rust file of the core is one Dafny module in the file of the same name:

| module | file | form |
|---|---|---|
| `Wer` | wer.dfy | functions, plus methods with loops for the rolling-row distance and the aggregate |
| `SrtParser`, `TxtParser` | srt_parser.dfy, txt_parser.dfy | functions, plus the parse loops as methods |
| `Worker`, `FilePlayback` | worker.dfy, file_playback.dfy | step functions, plus the loops as methods |
| `Engine` | engine.dfy | class `TranscriptionEngine` with map fields |
| `WsStorage` | ws_storage.dfy | class `Storage` with the two tables |
| `Handler`, `ApiErrors`, `OAuth`, `RemoteNim` | handler.dfy, api_error.dfy, oauth.dfy, remote_nim.dfy | functions and lemmas |
| `InviteDao`, `RoomDao`, `UserDao`, `NotificationDao`, `RoleDao` | invite_dao.dfy, room_dao.dfy, user_dao.dfy, notification_dao.dfy, role_dao.dfy | a store class each, with the collection as a field |
| `InviteRoutes`, `MessageRoutes` | invite_routes.dfy, message_routes.dfy | the endpoint decisions, over the stores |

A store class holds its collection as a `seq` or `map` field. Each state-changing method says
what the new state is, in terms of a step function. The lemmas beside it prove the promised
properties of that step.

Shared helpers:
- `Wrappers` holds `Option` and `Result`.
- `Seqs` holds the first-match position that `find_one` returns and the filter that a query
  selects.
- `Text` holds the Rust `str` operations the code calls: `trim`, `split`, `split_whitespace`,
  `lines`, `to_lowercase` and integer parsing.
- `Decimal` reads the `f64` fields of the transcript formats exactly, in thousandths.
- `Blocks` is the block reader shared by the two parsers.

Floating-point values become integers or exact fractions:
- a word error rate is the pair (edits, reference words) together with its fraction;
- transcript times are integer milliseconds;
- audio samples are integers.

The database, the network, the clocks and the foreign libraries are inputs: their answers are
passed in as values.

## Model

| member | source | states |
|---|---|---|
| Wer.NormalizeText | crates/transcription/src/wer.rs:1-10 | the normalised text is single-spaced: words joined by one space, no leading or trailing space |
| Wer.NormalizeTextChars | crates/transcription/src/wer.rs:2-9 | every character of the normalised text is a space or a lower-case alphanumeric character |
| Wer.NormalizeWords | crates/transcription/src/wer.rs:12-18 | every item of the word list is a non-empty run without whitespace |
| Wer.NormalizeWordsDirect | crates/transcription/src/wer.rs:12-18 | re-splitting the joined text gives the words of the lower-cased, filtered text (join then split is the identity) |
| Wer.NormalizeIgnoresCase | crates/transcription/src/wer.rs:1-10 | normalising the lower-cased text gives the same result as normalising the text |
| Wer.NormalizeIgnoresPunctuation | crates/transcription/src/wer.rs:1-10 | inserting a character that is neither alphanumeric nor whitespace anywhere leaves the normalised text unchanged |
| Wer.DistStep | crates/transcription/src/wer.rs:29-38 | each table cell is the minimum of deletion, insertion and substitution (cost 0 on equal words) |
| Wer.DistUpperBound | crates/transcription/src/wer.rs:21-43 | the distance between prefixes of lengths i and j is at most max(i, j) |
| Wer.DistLowerBound | crates/transcription/src/wer.rs:21-43 | the distance between prefixes of lengths i and j is at least their length difference |
| Wer.DistOfEqualPrefixes | crates/transcription/src/wer.rs:21-43 | equal prefixes have distance 0 |
| Wer.DistZeroMeansEqualPrefixes | crates/transcription/src/wer.rs:21-43 | distance 0 implies equal lengths and equal prefixes |
| Wer.EditDistanceZeroIff | crates/transcription/src/wer.rs:21-43 | `EditDistance`: the edit distance is 0 exactly when the word lists are equal |
| Wer.EditDistanceBounds | crates/transcription/src/wer.rs:21-43 | against an empty list the distance is the other list's length; it never exceeds the longer length |
| Wer.DistOneSubstitution | crates/transcription/src/wer.rs:21-43 | lists of equal length differing at one position have distance at most 1 on every diagonal prefix |
| Wer.OneSubstitution | crates/transcription/src/wer.rs:21-43 | equal-length lists differing in exactly one word have distance exactly 1 |
| Wer.FillRow | crates/transcription/src/wer.rs:28-39 | one pass of the outer loop fills `curr` with row `i` of the edit-distance table, given row `i - 1` in `prev` |
| Wer.LevenshteinWords | crates/transcription/src/wer.rs:21-43 | the two-row loop returns the word-level edit distance of the recursive definition |
| Wer.Wer | crates/transcription/src/wer.rs:48-63 | the rate's denominator is positive: an empty reference gives rate 0 or 1, never a division by zero |
| Wer.WordErrorRate | crates/transcription/src/wer.rs:48-63 | the method's (rate, edits, reference words) is the specification triple |
| Wer.WerZeroIff | crates/transcription/src/wer.rs:48-63 | zero edits exactly when both texts normalise to the same words, and then the rate is 0 |
| Wer.WerIgnoresCaseAndPunctuation | crates/transcription/src/wer.rs:102-112 | a text against its lower-cased copy, or against a copy with one punctuation mark added, has zero edits |
| Wer.WerRateBounds | crates/transcription/src/wer.rs:48-63 | the reference count is the normalised word count, the rate is edits/reference words, and at most 1 while the hypothesis is no longer |
| Wer.WerOneSubstitutionInTwo | crates/transcription/src/wer.rs:96-100 | two words with the second substituted give rate 1/2, one edit, two reference words |
| Wer.AggregateWer | crates/transcription/src/wer.rs:68-84 | the loop's totals are the summed per-pair edits and reference words; no reference words gives (0, 0, 0) |
| Wer.TotalsAppend | crates/transcription/src/wer.rs:68-84 | the totals of a concatenation are the sums of the totals |
| Wer.AggregateOfOne | crates/transcription/src/wer.rs:68-84 | the aggregate of one pair with a non-empty reference is that pair's rate |
| Wer.AggregateDropsEditsWithoutReference | crates/transcription/src/wer.rs:52-57 | a pair with an empty reference counts edits on its own but adds nothing to an aggregate of just that pair |
| Decimal.FracMilli | crates/transcription/src/pipeline/srt_parser.rs:125 | the fractional digits of a seconds field contribute fewer than 1000 milliseconds |
| Decimal.ParseWholeField | crates/transcription/src/pipeline/srt_parser.rs:123-124 | `ParseDecimalMilli`: a field of digits alone parses to its value in whole seconds |
| Decimal.FracMilliOfThree | crates/transcription/src/pipeline/srt_parser.rs:125 | three fractional digits are exactly the millisecond count |
| Decimal.ParseDecimalAt | crates/transcription/src/pipeline/srt_parser.rs:125 | digits, a dot at position k and three digits parse to whole*1000 + fraction |
| Decimal.ParseFractionField | crates/transcription/src/pipeline/srt_parser.rs:125 | "W.FFF" parses to W*1000 + FFF milliseconds |
| Decimal.PaddedValue | crates/transcription/src/pipeline/srt_parser.rs:134-138 | zero-padding a number to a width it fits keeps its value and gives exactly that width |
| SrtParser.ParseSrtTime | crates/transcription/src/pipeline/srt_parser.rs:116-127 | a parsed time came from exactly three ':'-separated fields once ',' is read as '.' |
| SrtParser.ParseHms | crates/transcription/src/pipeline/srt_parser.rs:119-126 | only three fields yield a time |
| SrtParser.ParseSrtTimeOfFields | crates/transcription/src/pipeline/srt_parser.rs:116-127 | three parsed fields give hours*3600 + minutes*60 + seconds |
| SrtParser.ParseHmsOf | crates/transcription/src/pipeline/srt_parser.rs:123-126 | three parsed fields combine as hours*3600 + minutes*60 + seconds |
| SrtParser.ReplaceInRendered | crates/transcription/src/pipeline/srt_parser.rs:118 | replacing ',' by '.' in "H:M:S,F" only changes the decimal separator |
| SrtParser.SplitRendered | crates/transcription/src/pipeline/srt_parser.rs:119 | splitting "H:M:S.F" on ':' gives the three fields |
| SrtParser.ParseRenderedFields | crates/transcription/src/pipeline/srt_parser.rs:116-127 | "HH:MM:SS,mmm" of digit fields parses to the millisecond total |
| SrtParser.FormatThenParse | crates/transcription/src/pipeline/srt_parser.rs:133-138 | a rendered "HH:MM:SS,mmm" time parses back to its milliseconds |
| SrtParser.FormatMillisThenParse | crates/transcription/src/pipeline/srt_parser.rs:133-138 | any millisecond count, rendered as an SRT time, parses back to itself |
| SrtParser.MillisSplit | crates/transcription/src/pipeline/srt_parser.rs:126 | hours, minutes, seconds and milliseconds of a count recombine to the count |
| SrtParser.ParseTimestampLine | crates/transcription/src/pipeline/srt_parser.rs:105-113 | a parsed line split into exactly two parts at "-->" |
| SrtParser.NoArrowWithoutDash | crates/transcription/src/pipeline/srt_parser.rs:106 | a text without '-' contains no "-->" |
| SrtParser.TrimAroundWord | crates/transcription/src/pipeline/srt_parser.rs:110-111 | trimming a trimmed word with one space added gives the word |
| SrtParser.FormatShape | crates/transcription/src/pipeline/srt_parser.rs:142 | a rendered time has no '-' and no whitespace at its ends |
| SrtParser.SplitArrow | crates/transcription/src/pipeline/srt_parser.rs:106 | two dash-free sides around "-->" split back into those sides |
| SrtParser.ParseTimestampOfParts | crates/transcription/src/pipeline/srt_parser.rs:105-113 | two parts whose trimmed times parse give the (start, end) pair |
| SrtParser.TimestampOfTimes | crates/transcription/src/pipeline/srt_parser.rs:105-113 | "x --> y" of two parseable times gives (start, end) |
| SrtParser.SplitTimes | crates/transcription/src/pipeline/srt_parser.rs:106-111 | "x --> y" splits into "x " and " y", which trim to x and y |
| SrtParser.FormatThenParseTimestampLine | crates/transcription/src/pipeline/srt_parser.rs:141-145 | a rendered "start --> end" line parses back to (start, end) for all times |
| SrtParser.SplitSpeaker | crates/transcription/src/pipeline/srt_parser.rs:55-69 | a speaker is split off only at the first ": " when its UTF-8 length is under 50 and it has no double space; otherwise the text is given whole |
| SrtParser.TextEnd | crates/transcription/src/pipeline/srt_parser.rs:48-52 | the text lines of a block run to the first blank line or the end |
| SrtParser.BlockAt | crates/transcription/src/pipeline/srt_parser.rs:22-78 | each loop iteration consumes at least one line |
| SrtParser.BlockFrom | crates/transcription/src/pipeline/srt_parser.rs:28-78 | a block read from a non-blank line consumes at least that line |
| SrtParser.BadIndexSkipped | crates/transcription/src/pipeline/srt_parser.rs:33-36 | an index line that is not a number is dropped alone and parsing resumes on the next line |
| SrtParser.BadTimestampSkipped | crates/transcription/src/pipeline/srt_parser.rs:39-46 | a bad timestamp line drops the index and timestamp lines, and parsing resumes after them |
| SrtParser.ParseBlocksOfSkip | crates/transcription/src/pipeline/srt_parser.rs:35 | `ParseBlocks`: a skipped block contributes no entry |
| SrtParser.EmittedBounds | crates/transcription/src/pipeline/srt_parser.rs:71-77 | an emitted entry has an index below 2^64 and any speaker is under 50 bytes with no double space |
| SrtParser.EntriesFromBlocks | crates/transcription/src/pipeline/srt_parser.rs:19-78 | every parsed entry has an index below 2^64 and any speaker under 50 bytes with no double space |
| SrtParser.DedupWithFresh | crates/transcription/src/pipeline/srt_parser.rs:80-91 | with a seen set, no kept entry has a key already seen |
| SrtParser.DedupWithUnique | crates/transcription/src/pipeline/srt_parser.rs:80-91 | the kept entries have pairwise distinct (start ms, text) keys |
| SrtParser.DedupWithFirst | crates/transcription/src/pipeline/srt_parser.rs:80-91 | every kept entry is the first entry of its key in the input |
| SrtParser.DedupWithComplete | crates/transcription/src/pipeline/srt_parser.rs:80-91 | every entry that is the first of its key, with a key not yet seen, is kept |
| SrtParser.DedupKeepsFirst | crates/transcription/src/pipeline/srt_parser.rs:80-91 | the deduplicated list has unique keys and holds exactly the first occurrence of each key |
| SrtParser.InsertByStart | crates/transcription/src/pipeline/srt_parser.rs:94 | insertion adds exactly the one entry |
| SrtParser.SortByStart | crates/transcription/src/pipeline/srt_parser.rs:94 | the sort is a permutation and ordered by start time |
| SrtParser.InsertByStartStable | crates/transcription/src/pipeline/srt_parser.rs:94 | an inserted entry goes after every entry with the same start, and those keep their order |
| SrtParser.SortByStartStable | crates/transcription/src/pipeline/srt_parser.rs:94 | the sort is stable: the entries with any one start time keep their input order |
| SrtParser.UniqueOccursOnce | crates/transcription/src/pipeline/srt_parser.rs:88 | under unique keys each entry occurs once |
| SrtParser.TwiceAtTwoPositions | crates/transcription/src/pipeline/srt_parser.rs:88 | an entry at two positions occurs at least twice in the multiset |
| SrtParser.UniqueKeysByMultiset | crates/transcription/src/pipeline/srt_parser.rs:94 | a permutation of a list with unique keys has unique keys: sorting keeps the deduplication |
| SrtParser.ReadText | crates/transcription/src/pipeline/srt_parser.rs:48-52 | the loop reads the trimmed lines up to the first blank line |
| SrtParser.ReadBlock | crates/transcription/src/pipeline/srt_parser.rs:28-78 | the block read by the loop body is the specification's block |
| SrtParser.ParseEntries | crates/transcription/src/pipeline/srt_parser.rs:19-78 | the outer loop collects the entries of every block |
| SrtParser.DedupEntries | crates/transcription/src/pipeline/srt_parser.rs:80-91 | the seen-set loop computes the deduplicated list |
| SrtParser.Renumber | crates/transcription/src/pipeline/srt_parser.rs:96-99 | the enumerate loop re-indexes from 1 |
| SrtParser.ReindexedKeeps | crates/transcription/src/pipeline/srt_parser.rs:96-99 | re-indexing numbers the entries 1..n in order and changes nothing else about them, so the order by start and the uniqueness of keys survive it |
| SrtParser.ParseSrt | crates/transcription/src/pipeline/srt_parser.rs:15-102 | the result is parse, dedup, sort and re-index of the lines; sorted by start, unique keys, indexes 1..n |
| Blocks.SkipBlank | crates/transcription/src/pipeline/srt_parser.rs:23-26 | the position after skipping is the first non-blank line at or after the start, or the end; every skipped line is blank |
| Blocks.SkipBlankLines | crates/transcription/src/pipeline/srt_parser.rs:23-26 | the peek loop stops at the specification's first non-blank line |
| Blocks.TrimmedLinesTrimmed | crates/transcription/src/pipeline/srt_parser.rs:49-52 | one part per line of the range, each the line with only surrounding whitespace removed: no whitespace at its ends, and empty exactly for a blank line |
| TxtParser.ParseMmSs | crates/transcription/src/pipeline/txt_parser.rs:87-95 | a parsed time came from exactly two ':'-separated fields |
| TxtParser.MinutesSeconds | crates/transcription/src/pipeline/txt_parser.rs:88-94 | only two fields yield a time |
| TxtParser.MinutesSecondsOf | crates/transcription/src/pipeline/txt_parser.rs:92-94 | two parsed fields give minutes*60 + seconds |
| TxtParser.FormatThenParseMmSs | crates/transcription/src/pipeline/txt_parser.rs:101-107 | a rendered "M:SS" parses back to (m*60 + s) seconds, in milliseconds |
| TxtParser.ParseMmSsNeedsOneColon | crates/transcription/src/pipeline/txt_parser.rs:88-91 | a text without ':' is not a time |
| TxtParser.TextEnd | crates/transcription/src/pipeline/txt_parser.rs:54-61 | the text lines run to the next blank line, the next "SPK_" line or the end |
| TxtParser.BlockAt | crates/transcription/src/pipeline/txt_parser.rs:31-72 | each loop iteration consumes at least one line |
| TxtParser.BlockFrom | crates/transcription/src/pipeline/txt_parser.rs:37-72 | a block read from a non-blank line consumes at least that line |
| TxtParser.NonSpeakerLineSkipped | crates/transcription/src/pipeline/txt_parser.rs:38-42 | a line not starting with "SPK_" is dropped alone |
| TxtParser.BadStartSkipped | crates/transcription/src/pipeline/txt_parser.rs:45-52 | an unparseable time drops the speaker and time lines |
| TxtParser.ParseBlocksOfSkip | crates/transcription/src/pipeline/txt_parser.rs:40 | a skipped block contributes no entry |
| TxtParser.EmittedShape | crates/transcription/src/pipeline/txt_parser.rs:62-71 | an emitted entry's speaker starts with "SPK_" and is trimmed, and its text is non-empty |
| TxtParser.EntriesHaveShape | crates/transcription/src/pipeline/txt_parser.rs:28-72 | every parsed entry has that shape |
| TxtParser.WithEnds | crates/transcription/src/pipeline/txt_parser.rs:74-81 | filling end times keeps the number of entries |
| TxtParser.WithEndsKeeps | crates/transcription/src/pipeline/txt_parser.rs:74-81 | speaker, start and text are kept; each end is the next start and the last ends 5 s after its start |
| TxtParser.ReadText | crates/transcription/src/pipeline/txt_parser.rs:55-61 | the loop reads the trimmed text lines of the block |
| TxtParser.ReadBlock | crates/transcription/src/pipeline/txt_parser.rs:37-72 | the loop body reads the specification's block |
| TxtParser.ParseEntries | crates/transcription/src/pipeline/txt_parser.rs:28-72 | the outer loop collects the entries of every block |
| TxtParser.FillEnds | crates/transcription/src/pipeline/txt_parser.rs:74-81 | the indexed loop computes the filled ends |
| TxtParser.ParseTxt | crates/transcription/src/pipeline/txt_parser.rs:24-84 | the result is the parsed blocks with ends filled; every entry has the shape and ends where the next starts |
| Worker.LowerOfNoUpper | crates/transcription/src/worker.rs:412 | lower-casing a text with no upper-case letter leaves it unchanged |
| Worker.HallucinationIgnoresCase | crates/transcription/src/worker.rs:411-421 | the filter gives the same answer for a text and its lower-cased copy |
| Worker.MarkerAnywhere | crates/transcription/src/worker.rs:413-417 | any text containing one of the five bracketed markers, wherever it sits, is a hallucination |
| Worker.LowerKeepsBrackets | crates/transcription/src/worker.rs:412 | lower-casing introduces no '[' or '(' |
| Worker.BracketFreeHallucination | crates/transcription/src/worker.rs:411-421 | `IsHallucination`: without brackets, a text is a hallucination exactly when its lower-cased form is one of the three stock phrases |
| Worker.GapCountsSkipped | crates/transcription/src/worker.rs:225-232 | `Gap`: the 16-bit wrapping gap is the unique count k with prev + k + 1 == num; it is 0 exactly when num is the expected next number |
| Worker.GapValue | crates/transcription/src/worker.rs:228-232 | the gap is num - prev - 1, plus 65536 when the sequence number wrapped |
| Worker.AddValue | crates/transcription/src/worker.rs:226 | wrapping addition on u16 is addition modulo 65536 |
| Worker.PlcFrames | crates/transcription/src/worker.rs:224-247 | concealment runs only after a first packet and only on a gap; it runs min(gap, 3) times |
| Worker.Conceal | crates/transcription/src/worker.rs:234-245 | the for loop runs PlcFrames times |
| Worker.FormatSecondsRoundTrip | crates/transcription/src/worker.rs:303-306 | the `{:.3}` seconds in a segment id parse back to the milliseconds they came from |
| Worker.ProcessEvents | crates/transcription/src/worker.rs:278-315 | one FINAL segment per SpeechEnd event |
| Worker.FinalsOfEvents | crates/transcription/src/worker.rs:278-315 | every segment of the event loop is final and ends now; with no SpeechStart the utterance is unchanged and the segments carry its id |
| Worker.Ingest | crates/transcription/src/worker.rs:205-347 | a packet that fails parsing or has an empty payload changes nothing; an accepted one sets last_seq and conceals PlcFrames; only a usable one sends FINALs plus at most one PARTIAL |
| Worker.StepSegments | crates/transcription/src/worker.rs:317-345 | the FINALs come first; a PARTIAL carries the speech buffer, of at least 8000 samples, and restarts the partial timer |
| Worker.CountFinalsAppend | crates/transcription/src/worker.rs:298-312 | final counts add over concatenation |
| Worker.CountFinalsPrefix | crates/transcription/src/worker.rs:298-312 | a list whose first n items are final and the rest not has n finals |
| Worker.CountFinalsOfStep | crates/transcription/src/worker.rs:268-315 | one packet sends as many FINALs as its SpeechEnd events, or none when unusable |
| Worker.RunAccounting | crates/transcription/src/worker.rs:177-352 | over a run, FINALs equal the SpeechEnd events of usable packets, every PARTIAL has at least 8000 samples, and concealment is at most 3 frames per accepted packet |
| Worker.FirstPacketConcealsNothing | crates/transcription/src/worker.rs:225 | the first packet of a stream runs no concealment |
| Worker.StepKeepsId | crates/transcription/src/worker.rs:303-306 | without a SpeechStart the utterance start is kept and every segment id names it |
| Worker.UtteranceKeepsId | crates/transcription/src/worker.rs:303-337 | across packets without a SpeechStart all PARTIAL and FINAL segments share one segment id |
| Worker.EventsUnfold | crates/transcription/src/worker.rs:278-315 | SpeechStart restarts the utterance at now; SpeechEnd keeps it and emits one FINAL |
| Worker.HandleEvents | crates/transcription/src/worker.rs:277-315 | the event loop computes ProcessEvents |
| Worker.HandlePacket | crates/transcription/src/worker.rs:205-347 | the loop body computes Ingest |
| Worker.IngestEach | crates/transcription/src/worker.rs:177-352 | the loop over packets computes the run |
| Worker.IngestionLoop | crates/transcription/src/worker.rs:120-355 | when the decoder, resampler or detector cannot be created, nothing is read and nothing is sent; otherwise the sent segments are the run's, FINALs match usable SpeechEnds, PARTIALs have at least 8000 samples, and concealment is bounded |
| Worker.AsrEvents | crates/transcription/src/worker.rs:367-406 | at most one event per segment |
| Worker.AsrEventsAppend | crates/transcription/src/worker.rs:367-406 | the ASR loop distributes over concatenated segment streams |
| Worker.EventsFromKeptSegments | crates/transcription/src/worker.rs:375-400 | every event comes from a segment whose transcription succeeded and was kept |
| Worker.EventTextsKept | crates/transcription/src/worker.rs:378-382 | every event text is non-empty, trimmed and not a hallucination |
| Worker.AllKeptAllSent | crates/transcription/src/worker.rs:384-396 | when every transcription is kept there is one event per segment, carrying that segment's times, finality and id |
| Worker.AsrLoop | crates/transcription/src/worker.rs:358-407 | the receive loop computes AsrEvents |
| FilePlayback.SameFilterAsWorker | crates/transcription/src/file_playback.rs:264-275 | the playback filter agrees with the worker's on every text |
| FilePlayback.AudioChunks | crates/transcription/src/file_playback.rs:176-179 | only full 512-sample chunks are fed: floor(len/512) of them, each of 512 samples |
| FilePlayback.Silence | crates/transcription/src/file_playback.rs:213 | the flush chunk has 512 samples |
| FilePlayback.Fed | crates/transcription/src/file_playback.rs:176-239 | the detector is fed the full chunks and then 30 silence chunks |
| FilePlayback.Silences | crates/transcription/src/file_playback.rs:214 | the flush feeds n silence chunks |
| FilePlayback.FlattenPrefix | crates/transcription/src/file_playback.rs:176-179 | the first n chunks concatenate to the first 512n samples |
| FilePlayback.ChunksCoverAudio | crates/transcription/src/file_playback.rs:176-179 | the chunks concatenate to the audio without its incomplete tail of fewer than 512 samples |
| FilePlayback.ChunkSegments | crates/transcription/src/file_playback.rs:182-205 | one segment per SpeechEnd event; SpeechStart emits nothing |
| FilePlayback.ChunkSegmentsFinal | crates/transcription/src/file_playback.rs:187-203 | every segment of a call is final and ends at the call's sample offset |
| FilePlayback.CallSegmentsFinal | crates/transcription/src/file_playback.rs:176-239 | every segment of the first `count` detector calls is final and ends before 32·`count` ms |
| FilePlayback.RunVadAllFinal | crates/transcription/src/file_playback.rs:143-260 | every segment is final; with the detector, each ends before the fed duration; without it, the whole audio is one segment |
| FilePlayback.ChunkStep | crates/transcription/src/file_playback.rs:182-205 | handling one event keeps "segments so far, then the rest" equal to the call's segments: SpeechStart adds nothing, SpeechEnd adds its one segment |
| FilePlayback.HandleChunkEvents | crates/transcription/src/file_playback.rs:182-205 | the event loop computes the call's segments |
| FilePlayback.CallSegmentsSnoc | crates/transcription/src/file_playback.rs:176-239 | one more call appends its segments, timed at 32 ms per call |
| FilePlayback.FeedChunk | crates/transcription/src/file_playback.rs:181-207 | one call extends the segment list by that call's segments |
| FilePlayback.FeedAudio | crates/transcription/src/file_playback.rs:176-209 | the chunking loop stops after floor(len/512) calls, having fed exactly the full chunks and collected those calls' segments |
| FilePlayback.ChunkCount | crates/transcription/src/file_playback.rs:176-179 | when fewer than 512 samples remain after `calls` chunks, `calls` is floor(len/512) and all full chunks were fed |
| FilePlayback.Flush | crates/transcription/src/file_playback.rs:211-239 | the flush feeds 30 silence chunks as further calls, advancing the offset by 512 each and collecting their segments |
| FilePlayback.RunVad | crates/transcription/src/file_playback.rs:143-260 | the method's segments and the chunks it feeds are the specification's, with the fallback when the detector does not load |
| FilePlayback.TranscribeSegments | crates/transcription/src/file_playback.rs:95-134 | the per-segment loop computes the same events as the worker's ASR loop |
| FilePlayback.Run | crates/transcription/src/file_playback.rs:66-140 | an unreadable file gives no events; otherwise the transcribed kept segments, all final |
| Engine.RoomKeysExactly | crates/transcription/src/engine.rs:113-122 | for hex room ids, a live or file key matches the room prefix test of disable_room exactly when it was made for that room |
| Engine.KeysDistinct | crates/transcription/src/engine.rs:181 | live keys are equal exactly when room and producer are equal, and never equal a file playback id |
| Engine.ResolveBackend | crates/transcription/src/engine.rs:141-167 | a backend resolves exactly when one exists; the room's model if available, else the default, else the first backend |
| Engine.Remaining | crates/transcription/src/engine.rs:266-271 | the keys left are those present and not stopped |
| Engine.StopOneMore | crates/transcription/src/engine.rs:124-126 | stopping one more key composes with earlier stops, in the map and in the aborted tasks |
| Engine.TranscriptionEngine.constructor | crates/transcription/src/engine.rs:45-71 | a new engine holds the backends and default, and no workers, models, broadcasts or playbacks |
| Engine.TranscriptionEngine.TryStartBroadcast | crates/transcription/src/engine.rs:88-90 | true exactly when the room had no broadcast flag; the flag is set afterwards |
| Engine.TranscriptionEngine.ClearBroadcast | crates/transcription/src/engine.rs:94-96 | the room's broadcast flag is removed and nothing else |
| Engine.TranscriptionEngine.EnableRoom | crates/transcription/src/engine.rs:99-103 | the room's model is set, so the room is enabled |
| Engine.TranscriptionEngine.StopPipeline | crates/transcription/src/engine.rs:266-271 | the key's worker is removed and its task aborted; an absent key changes nothing |
| Engine.TranscriptionEngine.StopEach | crates/transcription/src/engine.rs:124-126 | every listed key is stopped and their tasks aborted |
| Engine.TranscriptionEngine.CollectRoomKeys | crates/transcription/src/engine.rs:114-122 | the collected keys are exactly the workers' keys with the room's prefix |
| Engine.TranscriptionEngine.DisableRoom | crates/transcription/src/engine.rs:106-132 | the room is no longer enabled, its workers are stopped and aborted, other workers are kept, its broadcast flag is cleared |
| Engine.TranscriptionEngine.Spawn | crates/transcription/src/engine.rs:223-263 | a new worker under the key with a fresh task and the given backend |
| Engine.TranscriptionEngine.StartPipeline | crates/transcription/src/engine.rs:173-220 | any existing worker under the key is stopped first; a new worker runs with the resolved backend, or none when no backend exists |
| Engine.TranscriptionEngine.WorkerFinished | crates/transcription/src/engine.rs:248-253 | a finished task removes its own key without aborting anything |
| Engine.TranscriptionEngine.StopProducer | crates/transcription/src/engine.rs:274-277 | stops exactly the live key of the room and producer |
| Engine.TranscriptionEngine.ActivePipelineCount | crates/transcription/src/engine.rs:280-282 | the number of running workers |
| Engine.TranscriptionEngine.AvailableBackends | crates/transcription/src/engine.rs:285-287 | the configured backend names |
| Engine.TranscriptionEngine.TrackPlayback | crates/transcription/src/engine.rs:290-295 | the playback id is appended to the connection's list, created empty if missing |
| Engine.TranscriptionEngine.StopConnectionPlaybacks | crates/transcription/src/engine.rs:298-307 | every playback the connection tracked is stopped and the connection is forgotten |
| Engine.TranscriptionEngine.StartFilePlayback | crates/transcription/src/engine.rs:312-357 | none and no change without a backend; otherwise a worker under "file:{room}:{uuid}", returned as the playback id |
| WsStorage.Without | crates/api/src/ws/storage.rs:38 | the retained list is no longer than the original |
| WsStorage.WithoutKeepsOthers | crates/api/src/ws/storage.rs:38 | retain keeps exactly the other senders, drops every occurrence of the given one, and changes nothing when it is absent |
| WsStorage.TotalSendersAt | crates/api/src/ws/storage.rs:65-70 | the total count is one user's senders plus the rest's |
| WsStorage.TotalSendersUpdate | crates/api/src/ws/storage.rs:65-70 | replacing one user's list changes the total by the difference in lengths |
| WsStorage.TotalSendersRemove | crates/api/src/ws/storage.rs:65-70 | removing a user lowers the total by that user's senders |
| WsStorage.Storage.constructor | crates/api/src/ws/storage.rs:20-25 | a new registry has no users and no connections |
| WsStorage.Storage.Add | crates/api/src/ws/storage.rs:27-34 | the sender is appended to the user's list, the connection maps to (user, sender), and the count grows by one |
| WsStorage.Storage.Remove | crates/api/src/ws/storage.rs:36-45 | the sender's entries leave the user's list, an emptied user is removed, the connection id is forgotten, the count drops by the removed entries |
| WsStorage.Storage.GetSenders | crates/api/src/ws/storage.rs:47-52 | the user's senders, empty for an unknown user |
| WsStorage.Storage.GetSenderByConnection | crates/api/src/ws/storage.rs:55-59 | some sender exactly when the connection id is registered, and then its sender |
| WsStorage.Storage.AllUserIds | crates/api/src/ws/storage.rs:61-63 | exactly the users with connections, each once |
| WsStorage.Storage.ConnectionCount | crates/api/src/ws/storage.rs:65-70 | the sum of the lengths of all users' lists |
| WsStorage.AddThenLookup | crates/api/src/ws/storage.rs:27-34 | after add, the connection's sender is the one added and the user's list is the old one with it at the end |
| Handler.StrField | crates/api/src/ws/handler.rs:220 | a string field is read exactly when the payload has that field holding a string |
| Handler.ParseObjectId | crates/api/src/ws/handler.rs:228-234 | a room id parses exactly when it is 24 hex digits |
| Handler.ParsedIdShape | crates/api/src/ws/handler.rs:228-234 | a parsed id is 24 lower-case hex digits and holds no ':' |
| Handler.MediaJoinOrder | crates/api/src/ws/handler.rs:214-253 | `MediaJoin`: each join error has exactly its condition; a join succeeds exactly for a parsed id of an existing room whose transports were created; the transport outcome only matters for an existing room |
| Handler.TurnsPrefix | crates/api/src/ws/handler.rs:290-292 | the TLS variant of a "turn:" URL starts with "turns:" |
| Handler.TurnUrlsShape | crates/api/src/ws/handler.rs:286-294 | `TurnUrls`: one URL, or three exactly for a "turn:" URL without a transport: the URL, its TCP variant and the "turns:" TCP variant |
| Handler.IceServers | crates/api/src/ws/handler.rs:264-302 | at most one ICE server |
| Handler.TurnUsernameShape | crates/api/src/ws/handler.rs:265-283 | `TurnCredentials`: with a shared secret the username is "<now + 86400>:<user hex>", signed by the secret; otherwise the static username and password, "" when unset |
| Handler.IceServersShape | crates/api/src/ws/handler.rs:264-304 | no server exactly without a TURN URL, else one starting with that URL; force_relay defaults to false |
| Handler.ProduceSource | crates/api/src/ws/handler.rs:430-437 | the given source, else "audio" for audio and "camera" for video |
| Handler.MediaProduce | crates/api/src/ws/handler.rs:389-445 | an accepted produce has a payload whose kind parses to the result's kind, and the default source |
| Handler.MediaProduceKind | crates/api/src/ws/handler.rs:395-419 | `ParseKind`: "Missing data" exactly without a payload; "Invalid kind" exactly when a room id is present and the kind does not deserialise |
| Handler.RequestedModel | crates/api/src/ws/handler.rs:645-650 | a model is kept exactly when it is "whisper" or "canary" |
| Handler.ParseToggle | crates/api/src/ws/handler.rs:635-659 | a toggle is read exactly for a payload with a parseable room id; enabled only for a boolean true; the model is the kept one |
| Handler.ToggleAction | crates/api/src/ws/handler.rs:661-676 | enabled rooms are enabled with the requested model or the default backend; otherwise the room is disabled |
| Handler.ToggleDefaults | crates/api/src/ws/handler.rs:644-663 | a missing or unknown model gives the default backend, and a missing enabled flag disables |
| Handler.OtherConnections | crates/api/src/ws/handler.rs:812-814 | never more connections than the room has |
| Handler.OtherConnectionsExact | crates/api/src/ws/handler.rs:812-814 | the targets are exactly the room's connections other than this one |
| Handler.PeerLeftTargeting | crates/api/src/ws/handler.rs:98-120 | `PeerLeftTargets`: the leaver is never told, every other connection of its room is, and nobody when it was alone |
| ApiErrors.DisplayInjective | crates/api/src/error.rs:22-32 | two errors display alike exactly when they are the same error |
| ApiErrors.Status | crates/api/src/error.rs:42-51 | every status is a 4xx or 500, and 500 exactly for internal errors |
| ApiErrors.ResponseDeterminesError | crates/api/src/error.rs:42-59 | `IntoResponse`: the status names the variant, the body keeps the message, and two responses are equal exactly when the errors are |
| ApiErrors.FromDao | crates/api/src/error.rs:62-74 | DAO not-found becomes "Resource not found"; duplicate key, forbidden and validation keep their kind and message; database and BSON errors become internal, exactly those |
| ApiErrors.FromAuth | crates/api/src/error.rs:76-87 | every authentication error but a hashing failure is unauthorized; a hashing failure is internal; token and hash messages are kept |
| ApiErrors.FromOAuth | crates/api/src/error.rs:89-104 | configuration, unknown-provider and state errors are bad requests, exchange and user-info failures internal, with the OAuth error's text |
| InviteDao.ValidateExactly | crates/services/src/dao/invite.rs:149-178 | `Validate`: an invite is valid exactly when it is active, not past its expiry and below its use limit; "revoked" and "expired" each exactly for their conditions |
| InviteDao.NewInviteDefaults | crates/services/src/dao/invite.rs:25-64 | `NewInvite`: a new invite is active and unused, a targeted one has one use, and it expires the given hours later or never |
| InviteDao.LastUseExhausts | crates/services/src/dao/invite.rs:123-134 | `AfterUse`: the use that reaches the limit exhausts the invite, which then neither validates nor counts again |
| InviteDao.ValidMeansUsable | crates/services/src/dao/invite.rs:94-101 | `CanIncrement`: a valid invite also passes the counting filter; an active unlimited one always does |
| InviteDao.FindCode | crates/services/src/dao/invite.rs:66-71 | the invite found carries the code; not found exactly when no invite has it |
| InviteDao.IdLocates | crates/services/src/dao/invite.rs:94-96 | with distinct ids, looking an invite up by its id finds that invite |
| InviteDao.InviteStore.constructor | crates/services/src/dao/invite.rs:19-23 | a new store holds no invites |
| InviteDao.InviteStore.Create | crates/services/src/dao/invite.rs:25-64 | the new invite, with the defaults above, is appended |
| InviteDao.InviteStore.FindByCode | crates/services/src/dao/invite.rs:66-71 | the first invite with the code, or not found |
| InviteDao.InviteStore.IncrementUseCount | crates/services/src/dao/invite.rs:89-137 | an active invite below its limit gains one use, is exhausted on reaching it, and is returned as counted; otherwise nothing changes and the "cannot be used" error is returned |
| InviteDao.InviteStore.Revoke | crates/services/src/dao/invite.rs:139-146 | the invite with both the id and the tenant becomes revoked, and true exactly when one matched |
| InviteDao.RevokedIsDead | crates/services/src/dao/invite.rs:152-154 | a revoked invite never validates and is never counted |
| InviteRoutes.ParseOid | crates/api/src/routes/invite.rs:296-298 | an id parses exactly when it is an object id, else 400 "Invalid ObjectId: <id>" |
| InviteRoutes.ParseOidsExact | crates/api/src/routes/invite.rs:212-216 | a list parses exactly when every id does, keeping length and order; otherwise the first malformed id's error |
| InviteRoutes.RequireInvitePermission | crates/api/src/routes/invite.rs:300-315 | allowed exactly when the permissions were read and hold the INVITE_MEMBERS bit; a read error is converted, a missing bit is 403 |
| InviteRoutes.PermissionMonotone | crates/api/src/routes/invite.rs:309 | adding permission bits never revokes the right to invite |
| InviteRoutes.PermissionOnlyFlag | crates/api/src/routes/invite.rs:309 | only the INVITE_MEMBERS bit decides |
| InviteRoutes.TenantStore.constructor | crates/api/src/routes/invite.rs:136-155 | a tenant store starts with no memberships |
| InviteRoutes.TenantStore.AddMember | crates/api/src/routes/invite.rs:152-155 | the membership is recorded with its roles |
| InviteRoutes.RolesToGrant | crates/api/src/routes/invite.rs:141-149 | the requested roles, or the tenant's member role when none are asked for, or not found |
| InviteRoutes.AcceptOrder | crates/api/src/routes/invite.rs:113-162 | `AcceptDecision`: an unknown code is 404, an unusable invite 400, another's invite 403, an existing member 409, each only after the earlier checks; a success grants the invite's roles or the member role |
| InviteRoutes.AcceptInvite | crates/api/src/routes/invite.rs:113-171 | on success the user becomes a member, the invite's use is counted (which cannot fail for a valid invite) and the tenant's id, name and slug are returned; a failed final tenant lookup is the store's error, and both stores keep their changes; on any earlier refusal neither store changes |
| InviteRoutes.GetInviteInfo | crates/api/src/routes/invite.rs:77-110 | an unknown code is 404 "Invite not found"; once the invite is found, a failed tenant lookup and then a failed inviter lookup is that store's error; success needs all three lookups and carries the invite's code, the tenant's name and slug, and the inviter's display name |
| InviteRoutes.InfoLookupErrors | crates/api/src/routes/invite.rs:82-91 | "Invite not found" comes from the invite lookup only; a missing tenant or inviter is 404 "Resource not found", and their database failures are 500 |
| InviteRoutes.InfoAgreesWithAccept | crates/api/src/routes/invite.rs:77-138 | the info says valid exactly when accepting would not be refused as unusable, reports membership only to a signed-in caller, and a valid invite is "active" |
| InviteRoutes.StatusNameInjective | crates/api/src/routes/invite.rs:99 | distinct statuses render as distinct lower-case names |
| InviteRoutes.CreateDefaults | crates/api/src/routes/invite.rs:203-235 | `CreateDecision`: a create succeeds exactly when the tenant id, the permission and every role id pass; the invite then expires after the given hours or 168 |
| InviteRoutes.CreateInvite | crates/api/src/routes/invite.rs:203-235 | 201 and the stored invite, or the first failed check and no change |
| InviteRoutes.RevokeInvite | crates/api/src/routes/invite.rs:238-250 | the tenant id, invite id and permission are checked in that order; then the matching invite is revoked and the answer is true even when none matched |
| InviteRoutes.AddMemberOrder | crates/api/src/routes/invite.rs:253-277 | `AddMemberDecision`: an existing member is 409 whatever the roles; an empty list grants the member role; otherwise every role id must parse, keeping the count |
| InviteRoutes.AddMember | crates/api/src/routes/invite.rs:253-292 | 201 and the new membership, or the first failed check and no change |
| RoomDao.JoinSplitAt | crates/services/src/dao/room.rs:240 | joining path segments splits at any segment boundary into the two joined halves |
| RoomDao.SplitOnAppend | crates/services/src/dao/room.rs:41 | splitting "a.b" on the separator gives the segments of a followed by those of b |
| RoomDao.AncestorPaths | crates/services/src/dao/room.rs:233-241 | one ancestor per segment but the last, none for a single segment |
| RoomDao.AncestorAt | crates/services/src/dao/room.rs:239-241 | the i-th ancestor is the first i+1 segments joined by "." |
| RoomDao.AncestorsShape | crates/services/src/dao/room.rs:232-241 | a path has one ancestor fewer than segments, none without a "."; the first is the first segment, each extends the previous by the next segment, and each followed by "." is a prefix of the path |
| RoomDao.ChildAncestors | crates/services/src/dao/room.rs:39-44 | a child's ancestors are its parent's ancestors followed by the parent's path |
| RoomDao.AncestorPathList | crates/services/src/dao/room.rs:238-241 | the pushing loop builds the ancestor list |
| RoomDao.EscapeRoundTrip | crates/services/src/dao/room.rs:192-201 | `Escape`: unescaping the escaped query gives it back; each meta character adds one backslash; a query without meta characters is unchanged |
| RoomDao.MeetingFieldsShape | crates/services/src/dao/room.rs:46-52 | a meeting code set at creation has 11 characters with "-" at 3 and 7 |
| RoomDao.MeetingCodeShape | crates/services/src/dao/room.rs:627-636 | `MeetingCode`: a code of three numbers in [100, 999) has 11 characters with "-" at 3 and 7, and splits back into the three numbers |
| RoomDao.MeetingFields | crates/services/src/dao/room.rs:46-53 | code and join URL are set exactly when media or conference settings are given, and the URL is "/join/" and the code |
| RoomDao.JoinLeaveRoundTrip | crates/services/src/dao/room.rs:253-317 | `JoinStep`, `LeaveStep`: joining and then leaving restores the store and reports a deletion |
| RoomDao.LeaveOnlyOwn | crates/services/src/dao/room.rs:295-317 | `LeaveStep`: leave deletes exactly the tenant's membership of the user, lowers the member counter only then, and keeps every other membership |
| RoomDao.CloseOpen | crates/services/src/dao/room.rs:505-516 | every open session gets the leave time; closed ones are kept |
| RoomDao.JoinParticipantCounts | crates/services/src/dao/room.rs:372-495 | `JoinParticipantStep`: after joining a call the member is in it with one more session; the participant counter rises unless already in the call, the member counter only for a new member; a returning member becomes an attendee with video on |
| RoomDao.LeaveParticipantCloses | crates/services/src/dao/room.rs:497-531 | `LeaveParticipantStep`: leaving closes every open session, keeps the membership, and always lowers the participant counter by one |
| RoomDao.ParticipantCountAcrossCalls | crates/services/src/dao/room.rs:372-531 | joining and leaving restores the participant counter; a second leave lowers it again |
| RoomDao.TopicAsWrittenUnreadable | crates/services/src/dao/room.rs:155-157 | the topic written as a document makes the room unreadable as a room |
| RoomDao.SetDocKeys | crates/services/src/dao/room.rs:150-169 | `SetDoc`: the update document holds exactly the given fields, with their values |
| RoomDao.UpdateSetsProvided | crates/services/src/dao/room.rs:150-169 | with the topic as a string, reading the room back gives the room with exactly the given fields replaced |
| RoomDao.UpdateEmptyIffNoFields | crates/services/src/dao/room.rs:171-173 | the update document is empty exactly when no field is given |
| RoomDao.RoomStore.constructor | crates/services/src/dao/room.rs:18-23 | a new store has no rooms and no memberships |
| RoomDao.RoomStore.Create | crates/services/src/dao/room.rs:29-100 | a parent outside the tenant is not found; a (tenant, path) or meeting code already taken is the duplicate-key error of the unique indexes; on any error nothing changes; otherwise the room with its path and code is stored (a code, when media or conference settings are given, is 11 characters with dashes at 3 and 7, and its join url is "/join/" followed by it), the unique keys still hold, and its creator joins, leaving the member counter at 2 |
| RoomDao.RoomStore.Join | crates/services/src/dao/room.rs:253-293 | a new membership and one more member; an existing one is the duplicate-key error and nothing changes |
| RoomDao.RoomStore.Leave | crates/services/src/dao/room.rs:295-317 | the leave step: delete the membership and lower the counter, reporting whether one was deleted |
| RoomDao.RoomStore.JoinParticipant | crates/services/src/dao/room.rs:372-495 | the three join branches, returning the member as stored |
| RoomDao.RoomStore.LeaveParticipant | crates/services/src/dao/room.rs:497-531 | the leave step: close every open session and lower the participant counter |
| RoomDao.RoomStore.FindParticipantName | crates/services/src/dao/room.rs:553-571 | the member's display name, else the first 8 characters of the user id |
| RoomDao.RoomStore.Update | crates/services/src/dao/room.rs:139-181 | corrected topic (a plain string; see Findings): no field gives false and no write; otherwise true exactly when the tenant's room exists, and then exactly the given fields change |
| UserDao.NewAccountsDiffer | crates/services/src/dao/user.rs:18-50 | `NewUser`, `NewOAuthUser`: a password account has the hash, is unverified and unlinked; an OAuth account has no password, is verified and linked to exactly its provider; both use en-US and UTC |
| UserDao.BaseUsernameByChar | crates/services/src/dao/user.rs:133-138 | `BaseUsername`: the three string passes equal one pass that lower-cases, turns spaces into '_' and keeps alphanumerics and '_' |
| UserDao.BaseUsernameShape | crates/services/src/dao/user.rs:133-138 | the base username is no longer than the display name and holds only lower-case alphanumerics and '_' |
| UserDao.HexDigits | crates/services/src/dao/user.rs:169 | a fixed-width hex rendering has exactly that width |
| UserDao.HexDigitsInjective | crates/services/src/dao/user.rs:169 | equal fixed-width renderings of numbers in range are of equal numbers |
| UserDao.Hex | crates/services/src/dao/user.rs:169 | an object id renders as 24 hex digits |
| UserDao.SuffixAsWrittenIsTime | crates/services/src/dao/user.rs:169 | `SuffixAsWritten`: the first six hex digits of an object id are its timestamp divided by 256 |
| UserDao.SameWindowSameSuffix | crates/services/src/dao/user.rs:169 | two ids minted within the same 256-second window give the same suffix as written |
| UserDao.SuffixIsCounter | crates/services/src/dao/user.rs:169 | `Suffix`: the last six hex digits of an id are its counter |
| UserDao.SuccessiveCounter | crates/services/src/dao/user.rs:168-169 | ids minted one after another count up modulo 2^24 |
| UserDao.AsWrittenRetriesRepeat | crates/services/src/dao/user.rs:168-176 | as written, all five retries within one window propose the same username |
| UserDao.CountersDistinct | crates/services/src/dao/user.rs:168-169 | successive ids have distinct counters |
| UserDao.CandidateInjective | crates/services/src/dao/user.rs:169 | ids with distinct counters give distinct candidate usernames |
| UserDao.CandidatesDistinct | crates/services/src/dao/user.rs:168-176 | with the corrected counter suffix (see Findings), successive tries propose pairwise distinct usernames, each the base, '_' and the suffix |
| UserDao.InsertOutcome | crates/services/src/dao/user.rs:171-175 | an insert repeating an email or username is the duplicate-key error; it succeeds exactly when neither is taken and no other fault occurs |
| UserDao.Retry | crates/services/src/dao/user.rs:168-180 | a successful retry is one of the tries |
| UserDao.RetryExact | crates/services/src/dao/user.rs:168-180 | the first try that inserts wins after only duplicates; all duplicates give "Failed to generate unique username after retries"; another fault stops the loop with that fault |
| UserDao.HeldEmailBlocksCreation | crates/services/src/dao/user.rs:168-180 | when the email is already held, even by a deleted user, every try is a duplicate and creation fails |
| UserDao.LinkedToAsWrittenWeaker | crates/services/src/dao/user.rs:93-99 | `LinkedTo`, `LinkedToAsWritten`: the query as written matches every user the intended per-entry match does |
| UserDao.LinkedToAsWrittenCrossMatch | crates/services/src/dao/user.rs:93-99 | a user linked to (google, "1") and (github, "2") matches a sign-in (github, "1") as written, but not per entry |
| UserDao.OAuthResolution | crates/services/src/dao/user.rs:84-181 | with the corrected per-entry provider match (see Findings): a linked user is returned unchanged; else the live user with the email gets the provider linked once, keeping its other fields and username; only when neither exists is a user added, verified, passwordless, linked to exactly this provider, under the first candidate username that inserts |
| UserDao.OAuthTwiceLinksOnce | crates/services/src/dao/user.rs:84-129 | a second sign-in with the same provider finds the user and changes nothing |
| UserDao.DisplayNamesExact | crates/services/src/dao/user.rs:185-220 | with distinct ids, an id is reported exactly for a live user among the asked ids whose display name, or else username, is not empty, and with that name |
| UserDao.DisplayNamesNoIds | crates/services/src/dao/user.rs:191-193 | no ids asked, no names |
| UserDao.PatchedExact | crates/services/src/dao/user.rs:222-257 | each given field is replaced, every other field is kept, and the update time is set |
| UserDao.UserStore.constructor | crates/services/src/dao/user.rs:12-16 | a new store holds no users |
| UserDao.UserStore.Insert | crates/services/src/dao/user.rs:171 | the insert outcome, appending the user only on success |
| UserDao.UserStore.Create | crates/services/src/dao/user.rs:18-50 | a taken email or username is the duplicate-key error and nothing changes; otherwise the new password account is appended |
| UserDao.UserStore.FindByEmail | crates/services/src/dao/user.rs:52-57 | the first live user with the email, else not found |
| UserDao.UserStore.CreateOAuthUser | crates/services/src/dao/user.rs:140-181 | the retry loop adds the try that `Retry` picks and returns it, or adds nothing and returns the error `Retry` gives |
| UserDao.UserStore.FindOrCreateByOAuth | crates/services/src/dao/user.rs:84-181 | corrected as in Findings: the resolution step over the candidates drawn from the five ids |
| UserDao.UserStore.FindDisplayNames | crates/services/src/dao/user.rs:185-220 | the loop builds the names map |
| UserDao.UserStore.UpdateProfile | crates/services/src/dao/user.rs:222-257 | no field: false and no write; otherwise the user with the id is patched, and true exactly when one exists |
| NotificationDao.InsertByTime | crates/services/src/dao/notification.rs:53 | inserting into the newest-first order adds exactly one entry |
| NotificationDao.Newest | crates/services/src/dao/notification.rs:53 | sorting newest first keeps the number of entries |
| NotificationDao.InsertNoneAfter | crates/services/src/dao/notification.rs:53 | inserting an entry no later than a bound keeps every entry within the bound |
| NotificationDao.FilterNoneAfter | crates/services/src/dao/notification.rs:52 | filtering keeps every entry within a bound |
| NotificationDao.InsertByTimeSorted | crates/services/src/dao/notification.rs:53 | inserting into a newest-first list keeps it newest first |
| NotificationDao.InsertByTimeMultiset | crates/services/src/dao/notification.rs:53 | inserting adds exactly that entry |
| NotificationDao.NewestSorts | crates/services/src/dao/notification.rs:53 | the listing is newest first and a permutation of the matching notifications |
| NotificationDao.FilterInsertByTime | crates/services/src/dao/notification.rs:52-53 | filtering commutes with the ordered insertion |
| NotificationDao.FilterNewest | crates/services/src/dao/notification.rs:52-53 | filtering and sorting commute |
| NotificationDao.UnreadListingIsSubset | crates/services/src/dao/notification.rs:45-79 | the unread listing is the user's listing restricted to unread ones, and its length is the unread count |
| NotificationDao.MarkAll | crates/services/src/dao/notification.rs:90-100 | ids and owners are kept; afterwards every notification of the user is read; every other notification, and every one already read, is unchanged |
| NotificationDao.MarkAllCount | crates/services/src/dao/notification.rs:90-100 | afterwards the user has no unread notification, another user keeps its unread count, and nobody's total changes |
| NotificationDao.MarkAllClears | crates/services/src/dao/notification.rs:90-100 | marking all clears the user's unread count, keeps everyone else's, and leaves other users' notifications and every owner unchanged |
| NotificationDao.NotificationStore.constructor | crates/services/src/dao/notification.rs:12-16 | a new store holds no notifications |
| NotificationDao.NotificationStore.Create | crates/services/src/dao/notification.rs:18-43 | the new unread notification with a fresh id and the creation time is appended and returned |
| NotificationDao.NotificationStore.FindForUser | crates/services/src/dao/notification.rs:45-57 | the user's notifications, newest first |
| NotificationDao.NotificationStore.FindUnreadForUser | crates/services/src/dao/notification.rs:59-71 | the user's unread notifications, newest first |
| NotificationDao.NotificationStore.UnreadCount | crates/services/src/dao/notification.rs:73-79 | the number of the user's unread notifications |
| NotificationDao.NotificationStore.MarkRead | crates/services/src/dao/notification.rs:81-88 | the notification with the id and the user is marked read, and true exactly when one matched, read or not |
| NotificationDao.NotificationStore.MarkAllRead | crates/services/src/dao/notification.rs:90-100 | all the user's unread notifications are marked read and their number is returned |
| RoleDao.UpdatedExact | crates/services/src/dao/role.rs:69-74 | `Updated`: each given field is replaced, the others are kept, and the update time is set |
| RoleDao.RemoveAt | crates/services/src/dao/role.rs:98 | deleting one role leaves one fewer |
| RoleDao.DeleteGuard | crates/services/src/dao/role.rs:84-101 | `DeleteStep`: an unknown id is not found; a default or managed role is refused and nothing changes, in any tenant; an unprotected role is deleted exactly when the tenant is its own, and then only it goes |
| RoleDao.DefaultSpecs | crates/services/src/dao/role.rs:105-126 | four default roles at positions 0 to 3 with distinct names |
| RoleDao.SeedFresh | crates/services/src/dao/role.rs:128-135 | `SeedFrom`: in a tenant holding none of the names, seeding creates one protected role per spec, in order |
| RoleDao.SeedClash | crates/services/src/dao/role.rs:128-135 | a name the tenant already holds makes seeding fail with the duplicate-key error |
| RoleDao.SeedDefaultsOutcome | crates/services/src/dao/role.rs:104-136 | a new tenant gets Owner, Admin, Moderator and Member at positions 0 to 3, default and managed, Owner with every permission and Member with the member set; a held name makes it fail |
| RoleDao.SeededRolesSurviveDelete | crates/services/src/dao/role.rs:89-93 | a seeded role can never be deleted |
| RoleDao.RoleStore.constructor | crates/services/src/dao/role.rs:13-17 | a new store holds no roles |
| RoleDao.RoleStore.Create | crates/services/src/dao/role.rs:19-48 | `NewRole`: a name the tenant holds is the duplicate-key error and nothing changes; otherwise the new role, mentionable and not hoisted, is appended and returned |
| RoleDao.RoleStore.Update | crates/services/src/dao/role.rs:59-82 | the role with the id and the tenant gets the given fields; no match is false; a clashing new name is the duplicate-key error; either way nothing else changes |
| RoleDao.RoleStore.Delete | crates/services/src/dao/role.rs:84-101 | the guarded delete step |
| RoleDao.RoleStore.SeedDefaults | crates/services/src/dao/role.rs:104-136 | the seeding step over the four default roles |
| RoleDao.RoleStore.CreateAll | crates/services/src/dao/role.rs:128-135 | the creating loop computes the seeding step, keeping roles created before a failure |
| MessageRoutes.ParsedIds | crates/api/src/routes/message.rs:117-121 | never more ids than were sent |
| MessageRoutes.ParsedIdsExact | crates/api/src/routes/message.rs:117-121 | exactly the ids that parse are kept, and all of them when every one parses |
| MessageRoutes.MentionsOf | crates/api/src/routes/message.rs:116-131 | the stored mentions carry the parsed users, no roles or rooms, and the everyone and here flags as sent |
| MessageRoutes.MentionTargetsExact | crates/api/src/routes/message.rs:165-176 | `MentionTargets`: the author is never notified; @everyone notifies exactly the other room members; otherwise exactly the parsed mentioned users other than the author, members or not |
| MessageRoutes.NotificationBody | crates/api/src/routes/message.rs:199 | the body is the content's first 200 characters, or all of it when shorter |
| MessageRoutes.MentionNotifications | crates/api/src/routes/message.rs:193-217 | one notification per target, in order, addressed to that target with consecutive ids; every one is an unread mention of the tenant with the given title, body and link |
| MessageRoutes.CreateOutcome | crates/api/src/routes/message.rs:86-162 | `PrepareCreate`: each refusal has its condition in the handler's order; on success the broadcast reaches exactly the room members but the author, and nobody is notified without mentions |
| MessageRoutes.NotifyMentions | crates/api/src/routes/message.rs:193-217 | the loop over the mention targets appends exactly the mention notifications, one per target in order, and advances the id counter by the number of targets |
| MessageRoutes.CreateMessage | crates/api/src/routes/message.rs:86-221 | on success each target gets one unread notification titled "Mentioned in #<room>" with the content's first 200 characters and the room link; on failure none is created |
| MessageRoutes.PinEventType | crates/api/src/routes/message.rs:333 | "message:pin" exactly when pinning, "message:unpin" exactly when unpinning |
| MessageRoutes.TogglePinOutcome | crates/api/src/routes/message.rs:312-343 | `TogglePin`: a toggle succeeds exactly when the three ids parse, the caller is a member and the store calls succeed; the event goes to every member, the actor included; a non-member is 403 |
| OAuth.KeysOf | crates/services/src/oauth/mod.rs:110-117 | keys exist exactly for the five known providers, and each provider gets its own settings entry |
| OAuth.ProviderConfig | crates/services/src/oauth/mod.rs:109-122 | unknown provider exactly when the name is not one of the five; not configured exactly when a known provider's client id is empty; otherwise that provider's client id and secret |
| OAuth.CallbackUrl | crates/services/src/oauth/mod.rs:124-126 | the base url, then the callback path, then the provider name, each at its own offset |
| OAuth.CallbackUrlInjective | crates/services/src/oauth/mod.rs:124-126 | two providers share a callback url only when they are the same provider |
| OAuth.HexUpper | crates/services/src/oauth/mod.rs:135 | a hex digit of a percent escape is upper-case and itself never escaped |
| OAuth.HexValue | crates/services/src/oauth/mod.rs:135 | reading a hex digit gives a value below sixteen |
| OAuth.HexValueOfHexUpper | crates/services/src/oauth/mod.rs:135 | reading back a written hex digit gives the digit's value |
| OAuth.Utf8 | crates/services/src/oauth/mod.rs:135 | a character's UTF-8 form is one to four bytes; one byte, equal to the code, exactly for ASCII; otherwise a lead byte then continuation bytes |
| OAuth.PercentBytes | crates/services/src/oauth/mod.rs:135 | three output characters per byte, all of them legal in an encoded url |
| OAuth.EncodeChar | crates/services/src/oauth/mod.rs:135 | an unreserved character stays as it is; any other becomes a percent escape |
| OAuth.UrlEncode | crates/services/src/oauth/mod.rs:133-152 | the encoding is never shorter than its input and holds only url-safe characters |
| OAuth.UrlEncodeUnreserved | crates/services/src/oauth/mod.rs:133-152 | a string of unreserved characters encodes to itself |
| OAuth.DecodeEncodedChar | crates/services/src/oauth/mod.rs:133-152 | decoding an encoded ASCII character followed by any text gives the character back in front of that text's decoding |
| OAuth.UrlEncodeRoundTrip | crates/services/src/oauth/mod.rs:133-152 | decoding the encoding of an ASCII string gives the string back |
| OAuth.UrlEncodeInjective | crates/services/src/oauth/mod.rs:133-152 | two ASCII strings share an encoding only when they are equal |
| OAuth.AuthTemplateOf | crates/services/src/oauth/mod.rs:132-153 | there is an authorization template exactly for the five known providers |
| OAuth.BuildAuthUrl | crates/services/src/oauth/mod.rs:128-155 | a provider configuration error is returned as it is; a configured provider always gets a url |
| OAuth.AuthUrlParts | crates/services/src/oauth/mod.rs:133-152 | the url starts with the endpoint and client id, then the encoded redirect, and ends with the encoded state then the template's tail |
| OAuth.AuthUrlLayout | crates/services/src/oauth/mod.rs:128-155 | a built url has the provider's endpoint and client id, the encoded callback url and the encoded state in their places |
| OAuth.AuthUrlStateDetermined | crates/services/src/oauth/mod.rs:133-152 | with everything else fixed, equal urls have equal encoded states |
| OAuth.AuthUrlDeterminesState | crates/services/src/oauth/mod.rs:128-155 | for ASCII states, two urls for the same provider are equal exactly when the states are |
| OAuth.OrElse | crates/services/src/oauth/mod.rs:368-369 | the first value when present, otherwise the second |
| OAuth.FullName | crates/services/src/oauth/mod.rs:266-268 | the profile's own name wins; otherwise the joined given and family names, with no leading or trailing whitespace |
| OAuth.FullNameJoins | crates/services/src/oauth/mod.rs:266-268 | trimmed given and family names join with one space |
| OAuth.FullNameGivenOnly | crates/services/src/oauth/mod.rs:266-268 | a given name alone becomes the name, with the trailing space trimmed |
| OAuth.FullNameEmpty | crates/services/src/oauth/mod.rs:266-268 | no name parts at all give the empty name |
| OAuth.FacebookAvatar | crates/services/src/oauth/mod.rs:287 | the avatar is present exactly when the picture, its data and its url all are, and it is that url |
| OAuth.IntToString | crates/services/src/oauth/mod.rs:331 | the decimal form of the numeric id: its digits read back as the number, with a minus sign before negatives |
| OAuth.GitHubPrimaryEmail | crates/services/src/oauth/mod.rs:322-326 | the first address that is both primary and verified, or empty when there is none |
| OAuth.GitHubInfo | crates/services/src/oauth/mod.rs:296-336 | the profile email wins; without one a failed email fetch is an error and otherwise the primary verified address is used; the id is the number's decimal form and the name the login |
| OAuth.MicrosoftInfo | crates/services/src/oauth/mod.rs:358-377 | the display name, else the given name, else empty; the mail, else the principal name, else empty; never an avatar |
| OAuth.FetchUserInfo | crates/services/src/oauth/mod.rs:254-379 | an unknown provider is UnknownProvider; a failed fetch is UserInfoFailed; a result always names the requested provider; no other error kind arises |
| OAuth.FetchedEmail | crates/services/src/oauth/mod.rs:254-379 | every provider reports the profile's own email (Microsoft: mail, else principal name) when present; without one GitHub uses the primary verified address of the fetched list and every other provider the empty email |
| OAuth.FetchedIdAndAvatar | crates/services/src/oauth/mod.rs:254-379 | the user's provider id is the profile's `id` (GitHub: its decimal form; LinkedIn: `sub`, else empty) and its avatar the profile's picture (Facebook: `picture.data.url`; Microsoft: none); a decoded profile fails only for GitHub with no email and a failed email-list fetch |
| OAuth.FetchedName | crates/services/src/oauth/mod.rs:254-379 | the profile's own name field wins (Microsoft: display name; GitHub: login); a profile with no name parts at all gets the empty name |
| OAuth.Authenticate | crates/services/src/oauth/mod.rs:382-385 | the configuration is checked first, then the token exchange, then the user info; a success names a known provider |
| OAuth.AuthenticateStatus | crates/api/src/error.rs:89-104 | a failed sign-in is a client error exactly when the provider is unknown or not configured, and a server error otherwise |
| RemoteNim.LanguageCode | crates/transcription/src/asr/remote_nim.rs:59-68 | `SupportsLanguage`: no hint means en-US; a supported two-letter hint gains its region, and only a supported one changes; the code always starts with the hint |
| RemoteNim.U32AsI32 | crates/transcription/src/asr/remote_nim.rs:58 | the sample rate read as a signed 32-bit number: same bits modulo 2^32, unchanged below 2^31 |
| RemoteNim.MakeConfig | crates/transcription/src/asr/remote_nim.rs:55-73 | 16-bit linear encoding, one alternative, punctuation on, the backend's model, the hint's language code and the rate's signed reading |
| RemoteNim.Bits16 | crates/transcription/src/asr/remote_nim.rs:50 | a sample's two's-complement bits as an unsigned 16-bit value |
| RemoteNim.LeBytes | crates/transcription/src/asr/remote_nim.rs:50 | two bytes, low byte first, that together make the sample's 16 bits |
| RemoteNim.LeBytesRoundTrip | crates/transcription/src/asr/remote_nim.rs:50 | reading the two bytes back as a little-endian i16 gives the sample |
| RemoteNim.PcmBytes | crates/transcription/src/asr/remote_nim.rs:45-53 | two bytes per sample |
| RemoteNim.PcmBytesLayout | crates/transcription/src/asr/remote_nim.rs:45-53 | sample i occupies bytes 2i and 2i+1, low byte first |
| RemoteNim.DecodeS16le | crates/transcription/src/asr/remote_nim.rs:45-53 | reading an even-length byte stream back gives half as many samples |
| RemoteNim.PcmBytesRoundTrip | crates/transcription/src/asr/remote_nim.rs:45-53 | the byte layout loses nothing: decoding it gives the samples back |
| RemoteNim.PcmToS16le | crates/transcription/src/asr/remote_nim.rs:45-53 | the loop over the samples produces exactly the little-endian layout |
| RemoteNim.RecognizeRequestOf | crates/transcription/src/asr/remote_nim.rs:81-87 | the request carries the configuration of the hint and rate and audio that decodes to the request's samples |
| RemoteNim.BestAlternative | crates/transcription/src/asr/remote_nim.rs:96-99 | present exactly when there is a first result with a first alternative, and then it is that alternative |
| RemoteNim.ExtractResult | crates/transcription/src/asr/remote_nim.rs:95-113 | the language is never reported; a confidence exactly when there is a best alternative, with its text; otherwise empty text |
| RemoteNim.Transcribe | crates/transcription/src/asr/remote_nim.rs:78-114 | an invalid endpoint, a failed connection and a failed RPC are errors with their messages; success exactly when connected and the RPC answers, with the extracted result |
| RemoteNim.ExtractIgnoresLaterResults | crates/transcription/src/asr/remote_nim.rs:95-107 | results after the first and alternatives after the first do not change what is reported |

## Left out

- The browser media-session client is not part of this model; its code is not among the files modelled.
- Database and network I/O. The Mongo queries become operations on the stores' fields. `parse_srt` and `parse_txt` read their file first and fail with "Failed to read SRT…" or "Failed to read TXT…" (crates/transcription/src/pipeline/srt_parser.rs:16-17, crates/transcription/src/pipeline/txt_parser.rs:25-26); `SrtParser.ParseSrt` and `TxtParser.ParseTxt` take the file's contents, so that read and its error are not modelled. WebSocket sends become returned outputs. The reqwest token and user-info calls, and the gRPC connect and RPC, become input outcomes.
- Concurrency: tokio spawn and abort, `AbortOnDrop`, DashMap, broadcast and mpsc channels, and the NIM streaming tasks (crates/transcription/src/asr/remote_nim.rs:129-216). Every operation is sequential, and the atomic invite increment is modelled as one sequential step.
- Floating point. WAV decoding, downmixing and resampling are left out. The float-to-i16 clamp and scale in `pcm_f32_to_s16le` (crates/transcription/src/asr/remote_nim.rs:48-49) is also left out, so the model takes samples already quantised to i16. The `Instant`-based partial timing is a millisecond clock given as input, and the `{:.3}` float rendering of segment ids becomes integer milliseconds.
- Worker.IngestionLoop: the model is of the build with the `vad` feature. A build without it decodes every packet and then drops the audio (crates/transcription/src/worker.rs:348-351), so it sends no segment; that build is not modelled.
- Foreign libraries are inputs: whisper-rs, Silero VAD, the Opus decoder, rubato, nanoid and uuid. HMAC-SHA1 and base64 for TURN credentials are the `sign` parameter of `Handler.IceServers`. The three random numbers of a meeting code are parameters too. The `urlencoding` crate is replaced by the model's own `OAuth.UrlEncode`.
- Router, index and model declarations (crates/api/src/lib.rs, crates/db/src/indexes.rs, crates/db/src/models). Models appear only as datatypes. The unique indexes the modelled inserts run into appear as insert checks: users (email, username), roles (tenant, name), room members (room, user) and rooms (tenant, path; meeting code). Other unique indexes are not modelled.
- InviteDao.NewInvite: the expiry is `now + hours * 3600 * 1000` computed in `i64` (crates/services/src/dao/invite.rs:40-43), and the client supplies `hours`. A large enough `hours` overflows: a panic in a debug build, or a wrapped expiry in the past in a release build. The model adds unbounded integers, so that overflow is not modelled.
- InviteDao.InviteStore.Create: the unique index on invite `code` (crates/db/src/indexes.rs:138) is not checked, because the code is a random input; a clashing code would be a duplicate-key error in the source.
- The pass-through route handlers for rooms, users, notifications, roles and OAuth redirects are left out; they only call into the stores.
- Text: Rust's Unicode character classes are restricted to ASCII and Latin-1. A code point above U+00FF counts as neither whitespace nor alphanumeric. This affects `to_lowercase`, `trim` (also inside `OAuth.FullName`), `split_whitespace` and the WER character filter.
- Decimal.ParseDecimalMilli: reads an `f64` field as an unsigned decimal with the fraction truncated to thousandths. Exponents, signs, `inf` and `nan` are refused rather than parsed.
- OAuth.UrlEncodeRoundTrip, OAuth.UrlEncodeInjective and OAuth.AuthUrlDeterminesState are proved for ASCII text only. Non-ASCII characters are encoded through `OAuth.Utf8`, but no decoder of multi-byte escapes is modelled.
- The OAuth token exchange (crates/services/src/oauth/mod.rs:159-252) is an input: its access token or its failure text.
- RemoteNim: the confidence `f32` is a `real`; the numeric value of `AudioEncoding::Linear16` is a datatype constructor.
- Engine.TranscriptionEngine.StartPipeline: only the path that reads the room models is modelled. The `try_lock` failure fallback (crates/transcription/src/engine.rs:190-209) depends on lock contention and is left out. `subscribe`, `default_backend_name` and `is_enabled` are one-line reads.
- Room store:
  - `sessions.left_at: null` is read as "has an open session", which is what the code's comment means.
  - The 400 path of a concurrent increment is a concurrency matter and is left out.
  - Tenant lookups, list endpoints and their pagination, and `find_for_tenant`'s sort are left out.
  - `find_by_id`, which ignores deletion, is left out; so are `soft_delete`, the explore query beyond its escaping, `get_children`, `start_call`, `end_call` and the room chat messages.
- User store: database lookup errors, `find_by_id` after insert, document fields the modelled operations do not touch, `find_by_username` and `update_presence` are left out.
- NotificationDao.NotificationStore.FindForUser and NotificationDao.NotificationStore.FindUnreadForUser return the user's whole listing. The source pages it through `find_paginated` with the caller's `PaginationParams` (crates/services/src/dao/notification.rs:45-71). The paging helper is not part of this model, so the page bounds and the total count are not modelled.
- NotificationDao: database ids are a counter the store increments. The listings are newest first; notifications with equal `created_at` times keep their insertion order, an order the database does not promise.
- MessageRoutes.CreateMessage: a failed `notifications.create` is ignored by the source; the model's store insert cannot fail, so that failure is not represented.
- InviteRoutes.GetInviteInfo: the membership check reads the membership map, so a database failure of `is_member` (invite.rs:93-97) is not modelled; the same holds for the membership check in InviteRoutes.AcceptInvite.
- The message store (crates/services/src/dao/message.rs) is not part of this model, and neither is the tenant store. Their answers (`is_member`, `find_member_user_ids`, the stored message) are inputs. Listing, updating and deleting messages, pinned messages and thread replies are left out.
- RoleDao: permission constants are inputs. The `as i64` casts in role update are left out, because the model's integers do not overflow. `get_role_by_name`'s miss is a DAO not-found error.
- Store counters (use counts, member and participant counts, positions) are unbounded integers, not `u32`/`i64`. An `update_one` "matched" count is read as "a document matched" (role update, invite revoke, notification `mark_read`).
- Tests that the code contradicts are not used as ground truth. The WebSocket conference tests use `conference_id` and `/conference` routes, while the handler reads `room_id`.

## Findings

| source | as written | input that shows it | evidently intended | confidence | as-written member | corrected member |
|---|---|---|---|---|---|---|
| crates/services/src/dao/room.rs:155-157 | the new topic is stored as the document `{value: topic}`, while the room model reads `topic` as a plain value | update a room with topic "t": the stored `topic` is a subdocument, and reading the room back fails on that field | store the topic value as the field | not executed | RoomDao.TopicAsWrittenUnreadable | RoomDao.UpdateSetsProvided |
| crates/services/src/dao/user.rs:168-169 | the username suffix is the first six hex digits of a fresh object id, which are its timestamp | two retries within one 256-second window produce the same suffix, so all five retries can collide on the same candidate | a suffix that differs per retry: the object id's counter digits | not executed | UserDao.AsWrittenRetriesRepeat | UserDao.CandidatesDistinct |
| crates/services/src/dao/user.rs:95-99 | the lookup filters `oauth_providers.provider` and `oauth_providers.provider_id` separately, so the two may match different entries | a user linked as (google, "1") and (github, "2") is found by a sign-in as (github, "1") | both fields matched on the same entry (`$elemMatch`) | not executed | UserDao.LinkedToAsWrittenCrossMatch | UserDao.OAuthResolution |
