/**
 * Reference-transcript parser for SubRip files (crates/transcription/src/pipeline/srt_parser.rs).
 * Times are kept in integer milliseconds; each `f64` field of a timestamp is read as an
 * unsigned decimal number with up to millisecond precision.
 */
module SrtParser {
  import opened Wrappers
  import opened Text
  import opened Blocks
  import opened Decimal

  datatype SrtEntry = SrtEntry(index: nat, startMs: nat, endMs: nat, speaker: Option<string>, text: string)

  // ---------------------------------------------------------------- timestamps

  /** `parse_srt_time`: "H:M:S" with ',' read as '.', to milliseconds; exactly three fields. */
  function ParseSrtTime(s: string): (r: Option<nat>)
    ensures r.Some? ==> |SplitOn(ReplaceChar(s, ',', '.'), ':')| == 3
  {
    ParseHms(SplitOn(ReplaceChar(s, ',', '.'), ':'))
  }

  /** Hours, minutes and seconds fields, each in thousandths, combined into milliseconds. */
  function ParseHms(fields: seq<string>): (r: Option<nat>)
    ensures r.Some? ==> |fields| == 3
  {
    if |fields| != 3 then None
    else
      var h, m, sec := ParseDecimalMilli(fields[0]), ParseDecimalMilli(fields[1]), ParseDecimalMilli(fields[2]);
      if h.Some? && m.Some? && sec.Some? then Some(h.value * 3600 + m.value * 60 + sec.value) else None
  }

  /** The "HH:MM:SS,mmm" rendering of a time, the form SubRip files carry. */
  function FormatSrtTime(h: nat, m: nat, sec: nat, ms: nat): string
    requires m < 60 && sec < 60 && ms < 1000
  {
    Rendered(PadDigits(NatToString(h), 2), PadDigits(NatToString(m), 2), PadDigits(NatToString(sec), 2), ',', PadDigits(NatToString(ms), 3))
  }

  predicate PlainField(s: string) { ',' !in s && ':' !in s && '.' !in s }

  /** "H:M:S<sep>F", associated to the right. */
  function Rendered(H: string, M: string, S: string, sep: char, F: string): string
  {
    H + ([':'] + (M + ([':'] + (S + ([sep] + F)))))
  }

  lemma ReplaceInRendered(H: string, M: string, S: string, F: string)
    requires PlainField(H) && PlainField(M) && PlainField(S) && PlainField(F)
    ensures ReplaceChar(Rendered(H, M, S, ',', F), ',', '.') == Rendered(H, M, S, '.', F)
  {
    ReplaceCharKeep(H, [':'] + (M + ([':'] + (S + ([','] + F)))), ',', '.');
    ReplaceCharKeep([':'], M + ([':'] + (S + ([','] + F))), ',', '.');
    ReplaceCharKeep(M, [':'] + (S + ([','] + F)), ',', '.');
    ReplaceCharKeep([':'], S + ([','] + F), ',', '.');
    ReplaceCharKeep(S, [','] + F, ',', '.');
    assert ReplaceChar([','] + F, ',', '.') == ['.'] + F by {
      assert ([','] + F)[1..] == F;
      ReplaceCharAbsent(F, ',', '.');
    }
  }

  lemma SplitRendered(H: string, M: string, S: string, F: string)
    requires PlainField(H) && PlainField(M) && PlainField(S) && PlainField(F)
    ensures SplitOn(Rendered(H, M, S, '.', F), ':') == [H, M, S + (['.'] + F)]
  {
    var rest2 := S + (['.'] + F);
    var rest1 := M + ([':'] + rest2);
    SplitOnCons(H, ':', rest1);
    SplitOnCons(M, ':', rest2);
    assert ':' !in rest2;
    SplitOnAbsent(rest2, ':');
  }


  lemma ParseSrtTimeOfFields(t: string, fields: seq<string>, h: nat, m: nat, sec: nat, total: nat)
    requires SplitOn(ReplaceChar(t, ',', '.'), ':') == fields && |fields| == 3
    requires ParseDecimalMilli(fields[0]) == Some(h)
    requires ParseDecimalMilli(fields[1]) == Some(m)
    requires ParseDecimalMilli(fields[2]) == Some(sec)
    requires total == h * 3600 + m * 60 + sec
    ensures ParseSrtTime(t) == Some(total)
  {
    assert ParseSrtTime(t) == ParseHms(fields);
    ParseHmsOf(fields, h, m, sec, total);
  }

  lemma ParseHmsOf(fields: seq<string>, h: nat, m: nat, sec: nat, total: nat)
    requires |fields| == 3
    requires ParseDecimalMilli(fields[0]) == Some(h)
    requires ParseDecimalMilli(fields[1]) == Some(m)
    requires ParseDecimalMilli(fields[2]) == Some(sec)
    requires total == h * 3600 + m * 60 + sec
    ensures ParseHms(fields) == Some(total)
  {
  }

  /** A rendered time reads as its three fields, whatever they parse to. */
  lemma ParseRenderedFields(H: string, M: string, S: string, F: string, h: nat, m: nat, sec: nat, total: nat)
    requires PlainField(H) && PlainField(M) && PlainField(S) && PlainField(F)
    requires ParseDecimalMilli(H) == Some(h)
    requires ParseDecimalMilli(M) == Some(m)
    requires ParseDecimalMilli(S + (['.'] + F)) == Some(sec)
    requires total == h * 3600 + m * 60 + sec
    ensures ParseSrtTime(Rendered(H, M, S, ',', F)) == Some(total)
  {
    ReplaceInRendered(H, M, S, F);
    SplitRendered(H, M, S, F);
    var fields := [H, M, S + (['.'] + F)];
    assert fields[0] == H && fields[1] == M && fields[2] == S + (['.'] + F);
    ParseSrtTimeOfFields(Rendered(H, M, S, ',', F), fields, h, m, sec, total);
  }

  /** Digit fields hold no separator, and each reads as its value in thousandths. */
  lemma DigitFieldValues(H: string, M: string, S: string, F: string)
    requires AllDigits(H) && AllDigits(M) && AllDigits(S) && AllDigits(F)
    requires |H| > 0 && |M| > 0 && |S| > 0 && |F| == 3
    ensures PlainField(H) && PlainField(M) && PlainField(S) && PlainField(F)
    ensures ParseDecimalMilli(H) == Some(DigitsValue(H) * 1000)
    ensures ParseDecimalMilli(M) == Some(DigitsValue(M) * 1000)
    ensures ParseDecimalMilli(S + (['.'] + F)) == Some(DigitsValue(S) * 1000 + DigitsValue(F))
  {
    NoDotInDigits(H);
    NoDotInDigits(M);
    NoDotInDigits(S);
    NoDotInDigits(F);
    ParseWholeField(H);
    ParseWholeField(M);
    ParseFractionField(S, F);
  }

  /**
   * A time written as digit fields "H:M:S,FFF" reads as H hours, M minutes, S seconds and
   * FFF milliseconds.
   */
  lemma ParseDigitFields(H: string, M: string, S: string, F: string, total: nat)
    requires AllDigits(H) && AllDigits(M) && AllDigits(S) && AllDigits(F)
    requires |H| > 0 && |M| > 0 && |S| > 0 && |F| == 3
    requires total == DigitsValue(H) * 3_600_000 + DigitsValue(M) * 60_000 + DigitsValue(S) * 1000 + DigitsValue(F)
    ensures ParseSrtTime(Rendered(H, M, S, ',', F)) == Some(total)
  {
    DigitFieldValues(H, M, S, F);
    ParseRenderedFields(H, M, S, F, DigitsValue(H) * 1000, DigitsValue(M) * 1000, DigitsValue(S) * 1000 + DigitsValue(F), total);
  }

  /** The zero-padded fields of a time are digit strings worth its hours, minutes, seconds and milliseconds. */
  lemma FormatFields(h: nat, m: nat, sec: nat, ms: nat)
    requires m < 60 && sec < 60 && ms < 1000
    ensures var H, M, S, F := PadDigits(NatToString(h), 2), PadDigits(NatToString(m), 2), PadDigits(NatToString(sec), 2), PadDigits(NatToString(ms), 3);
      AllDigits(H) && AllDigits(M) && AllDigits(S) && AllDigits(F)
      && |H| > 0 && |M| > 0 && |S| > 0 && |F| == 3
      && DigitsValue(H) == h && DigitsValue(M) == m && DigitsValue(S) == sec && DigitsValue(F) == ms
  {
    PadDigitsValue(NatToString(h), 2);
    NatToStringRoundTrip(h);
    PaddedValue(m, 2);
    PaddedValue(sec, 2);
    PaddedValue(ms, 3);
  }

  /** Reading back a rendered time gives its milliseconds. */
  lemma FormatThenParse(h: nat, m: nat, sec: nat, ms: nat, total: nat)
    requires m < 60 && sec < 60 && ms < 1000
    requires total == h * 3_600_000 + m * 60_000 + sec * 1000 + ms
    ensures ParseSrtTime(FormatSrtTime(h, m, sec, ms)) == Some(total)
  {
    FormatFields(h, m, sec, ms);
    ParseDigitFields(PadDigits(NatToString(h), 2), PadDigits(NatToString(m), 2), PadDigits(NatToString(sec), 2), PadDigits(NatToString(ms), 3), total);
  }

  /** `parse_timestamp_line`: exactly one "-->", both sides trimmed and parsed. */
  function ParseTimestampLine(line: string): (r: Option<(nat, nat)>)
    ensures r.Some? ==> |SplitOnStr(line, "-->")| == 2
  {
    var parts := SplitOnStr(line, "-->");
    if |parts| != 2 then None
    else
      var start, end := ParseSrtTime(Trim(parts[0])), ParseSrtTime(Trim(parts[1]));
      if start.Some? && end.Some? then Some((start.value, end.value)) else None
  }

  lemma NoArrowWithoutDash(s: string, from: nat)
    requires '-' !in s && from <= |s|
    ensures forall k: nat :: from <= k ==> !OccursAt(s, "-->", k)
    ensures from == 0 ==> Find(s, "-->").None?
  {
    forall k: nat | from <= k ensures !OccursAt(s, "-->", k) {
      if k + 3 <= |s| { assert s[k..k + 3][0] == s[k]; }
    }
  }

  lemma TrimAroundWord(x: string)
    requires |x| > 0 && !IsWhitespace(x[0]) && !IsWhitespace(x[|x| - 1])
    ensures Trim(x + " ") == x && Trim(" " + x) == x
  {
    assert TrimStart(x + " ") == x + " ";
    assert (x + " ")[..|x|] == x;
    assert TrimEnd(x + " ") == TrimEnd(x);
    assert (" " + x)[1..] == x;
    assert TrimStart(" " + x) == x;
  }

  /** A rendered time starts with its hours and ends with its fraction, and adds no '-'. */
  lemma RenderedEnds(H: string, M: string, S: string, sep: char, F: string)
    requires |H| > 0 && |F| > 0 && sep != '-'
    requires '-' !in H && '-' !in M && '-' !in S && '-' !in F
    ensures var t := Rendered(H, M, S, sep, F);
      '-' !in t && t[0] == H[0] && t[|t| - 1] == F[|F| - 1]
  {
  }

  lemma FormatShape(h: nat, m: nat, sec: nat, ms: nat)
    requires m < 60 && sec < 60 && ms < 1000
    ensures var t := FormatSrtTime(h, m, sec, ms);
      '-' !in t && |t| > 0 && !IsWhitespace(t[0]) && !IsWhitespace(t[|t| - 1])
  {
    var H, M, S, F := PadDigits(NatToString(h), 2), PadDigits(NatToString(m), 2), PadDigits(NatToString(sec), 2), PadDigits(NatToString(ms), 3);
    NoDotInDigits(H); NoDotInDigits(M); NoDotInDigits(S); NoDotInDigits(F);
    RenderedEnds(H, M, S, ',', F);
    assert IsAsciiDigit(H[0]) && IsAsciiDigit(F[|F| - 1]);
  }

  lemma SplitArrow(left: string, right: string)
    requires '-' !in left && '-' !in right
    ensures SplitOnStr(left + ("-->" + right), "-->") == [left, right]
  {
    var line := left + ("-->" + right);
    ArrowFirstAt(left, right);
    NoArrowWithoutDash(right, 0);
    assert SplitOnStr(right, "-->") == [right];
    assert SplitOnStr(line, "-->") == [line[..|left|]] + SplitOnStr(line[|left| + 3..], "-->");
  }

  /** In a dash-free `left` followed by "-->", the first arrow is the one after `left`. */
  lemma ArrowFirstAt(left: string, right: string)
    requires '-' !in left
    ensures var line := left + ("-->" + right);
      Find(line, "-->") == Some(|left|) && line[..|left|] == left && line[|left| + 3..] == right
  {
    var line := left + ("-->" + right);
    assert OccursAt(line, "-->", |left|) by { assert line[|left|..|left| + 3] == "-->"; }
    forall k: nat | k < |left| ensures !OccursAt(line, "-->", k) {
      assert line[k] == left[k];
      if k + 3 <= |line| { assert line[k..k + 3][0] == line[k]; }
    }
    FindFirstAt(line, "-->", |left|);
    assert line[..|left|] == left;
    assert line[|left| + 3..] == right;
  }

  lemma ParseTimestampOfParts(line: string, l: string, r: string, start: nat, end: nat)
    requires SplitOnStr(line, "-->") == [l, r]
    requires ParseSrtTime(Trim(l)) == Some(start) && ParseSrtTime(Trim(r)) == Some(end)
    ensures ParseTimestampLine(line) == Some((start, end))
  {
  }

  /** Two dash-free, trimmed times joined by " --> " read back as the pair. */
  lemma TimestampOfTimes(x: string, y: string, start: nat, end: nat)
    requires '-' !in x && |x| > 0 && !IsWhitespace(x[0]) && !IsWhitespace(x[|x| - 1])
    requires '-' !in y && |y| > 0 && !IsWhitespace(y[0]) && !IsWhitespace(y[|y| - 1])
    requires ParseSrtTime(x) == Some(start) && ParseSrtTime(y) == Some(end)
    ensures ParseTimestampLine(x + (" --> " + y)) == Some((start, end))
  {
    SplitTimes(x, y);
    ParseTimestampOfParts(x + (" --> " + y), x + " ", " " + y, start, end);
  }

  lemma SplitTimes(x: string, y: string)
    requires '-' !in x && |x| > 0 && !IsWhitespace(x[0]) && !IsWhitespace(x[|x| - 1])
    requires '-' !in y && |y| > 0 && !IsWhitespace(y[0]) && !IsWhitespace(y[|y| - 1])
    ensures SplitOnStr(x + (" --> " + y), "-->") == [x + " ", " " + y]
    ensures Trim(x + " ") == x && Trim(" " + y) == y
  {
    var left, right := x + " ", " " + y;
    assert x + (" --> " + y) == left + ("-->" + right);
    assert '-' !in left && '-' !in right;
    SplitArrow(left, right);
    TrimAroundWord(x);
    TrimAroundWord(y);
  }

  /** A millisecond count rendered as "HH:MM:SS,mmm". */
  function FormatMillis(t: nat): string
  {
    FormatSrtTime(t / 3_600_000, t / 60_000 % 60, t / 1000 % 60, t % 1000)
  }

  lemma MillisSplit(t: nat)
    ensures t / 3_600_000 * 3_600_000 + t / 60_000 % 60 * 60_000 + t / 1000 % 60 * 1000 + t % 1000 == t
  {
    var s := t / 1000;
    var mm := s / 60;
    assert t == s * 1000 + t % 1000;
    assert s == mm * 60 + s % 60;
    assert t / 60_000 == mm by {
      assert t == mm * 60_000 + (s % 60 * 1000 + t % 1000);
      assert 0 <= s % 60 * 1000 + t % 1000 < 60_000;
    }
    assert t / 3_600_000 == mm / 60 by {
      assert mm == mm / 60 * 60 + mm % 60;
      assert t == mm / 60 * 3_600_000 + (mm % 60 * 60_000 + s % 60 * 1000 + t % 1000);
      assert 0 <= mm % 60 * 60_000 + s % 60 * 1000 + t % 1000 < 3_600_000;
    }
  }

  /** Every millisecond count survives rendering and reading back. */
  lemma FormatMillisThenParse(t: nat)
    ensures ParseSrtTime(FormatMillis(t)) == Some(t)
  {
    MillisSplit(t);
    FormatThenParse(t / 3_600_000, t / 60_000 % 60, t / 1000 % 60, t % 1000, t);
  }

  /** A rendered "start --> end" line reads back as both times. */
  lemma FormatThenParseTimestampLine(start: nat, end: nat)
    ensures ParseTimestampLine(FormatMillis(start) + (" --> " + FormatMillis(end))) == Some((start, end))
  {
    FormatShape(start / 3_600_000, start / 60_000 % 60, start / 1000 % 60, start % 1000);
    FormatShape(end / 3_600_000, end / 60_000 % 60, end / 1000 % 60, end % 1000);
    FormatMillisThenParse(start);
    FormatMillisThenParse(end);
    TimestampOfTimes(FormatMillis(start), FormatMillis(end), start, end);
  }

  // ---------------------------------------------------------------- speaker prefix

  /** "Name: text" becomes (Some(Name), text) when Name is under 50 bytes without a double space. */
  function SplitSpeaker(raw: string): (r: (Option<string>, string))
    ensures r.0.None? ==> r.1 == raw
    ensures r.0.Some? ==> raw == r.0.value + ": " + r.1
    ensures r.0.Some? ==> Utf8Len(r.0.value) < 50 && !Contains(r.0.value, "  ") && !Contains(r.0.value, ": ")
    ensures r.0.None? && Contains(raw, ": ") ==>
      var p := Find(raw, ": ").value; Utf8Len(raw[..p]) >= 50 || Contains(raw[..p], "  ")
  {
    match Find(raw, ": ")
    case Some(p) =>
      var candidate := raw[..p];
      if Utf8Len(candidate) < 50 && !Contains(candidate, "  ") then
        assert raw == candidate + raw[p..p + 2] + raw[p + 2..];
        assert !Contains(candidate, ": ") by {
          forall k: nat ensures !OccursAt(candidate, ": ", k) {
            if k + 2 <= |candidate| { assert candidate[k..k + 2] == raw[k..k + 2]; assert !OccursAt(raw, ": ", k); }
          }
        }
        (Some(candidate), raw[p + 2..])
      else (None, raw)
    case None => (None, raw)
  }

  // ---------------------------------------------------------------- blocks

  function TextEnd(lines: seq<string>, pos: nat): (r: nat)
    requires pos <= |lines|
    ensures pos <= r <= |lines|
    ensures forall k {:trigger IsBlank(lines[k])} :: pos <= k < r ==> !IsBlank(lines[k])
    decreases |lines| - pos
  {
    if pos < |lines| && !IsBlank(lines[pos]) then TextEnd(lines, pos + 1) else pos
  }

  /**
   * One block from line `pos` on: blank lines are skipped, an unparsable index line is dropped
   * alone, an unparsable timestamp line drops itself and its index line, and the text runs to
   * the next blank line or the end of the file.
   */
  function BlockAt(lines: seq<string>, pos: nat): (r: Step<SrtEntry>)
    requires pos <= |lines|
    ensures r.Skip? || r.Emit? ==> pos < r.next <= |lines|
  {
    BlockFrom(lines, SkipBlank(lines, pos))
  }

  /** The block whose index line is line `p`, the first non-blank one. */
  function BlockFrom(lines: seq<string>, p: nat): (r: Step<SrtEntry>)
    requires p <= |lines|
    ensures r.Skip? || r.Emit? ==> p < r.next <= |lines|
  {
    if p >= |lines| then Stop
    else
      var index := ParseUsize(Trim(lines[p]));
      if index.None? then Skip(p + 1)
      else if p + 1 >= |lines| then Stop
      else
        var times := ParseTimestampLine(Trim(lines[p + 1]));
        if times.None? then Skip(p + 2)
        else Emit(EntryOf(lines, p + 2, index.value, times.value), TextEnd(lines, p + 2))
  }

  /** The entry of a block whose text starts at line `from`: its lines trimmed and joined by spaces. */
  function EntryOf(lines: seq<string>, from: nat, index: nat, times: (nat, nat)): SrtEntry
    requires from <= |lines|
  {
    var split := SplitSpeaker(Join(TrimmedLines(lines, from, TextEnd(lines, from)), " "));
    SrtEntry(index, times.0, times.1, split.0, split.1)
  }

  /** The entries of the blocks from line `pos` on, before de-duplication. */
  function ParseBlocks(lines: seq<string>, pos: nat): seq<SrtEntry>
    requires pos <= |lines|
    decreases |lines| - pos
  {
    match BlockAt(lines, pos)
    case Stop => []
    case Skip(next) => ParseBlocks(lines, next)
    case Emit(e, next) => [e] + ParseBlocks(lines, next)
  }

  /** An index line that does not parse drops that line alone. */
  lemma BadIndexSkipped(lines: seq<string>, p: nat)
    requires p < |lines| && ParseUsize(Trim(lines[p])).None?
    ensures BlockFrom(lines, p) == Skip(p + 1)
  {
  }

  /** A timestamp line that does not parse drops it and its index line. */
  lemma BadTimestampSkipped(lines: seq<string>, p: nat)
    requires p + 1 < |lines| && ParseUsize(Trim(lines[p])).Some? && ParseTimestampLine(Trim(lines[p + 1])).None?
    ensures BlockFrom(lines, p) == Skip(p + 2)
  {
  }

  /** A dropped block does not end the parse: it resumes after the dropped lines. */
  lemma ParseBlocksOfSkip(lines: seq<string>, pos: nat, next: nat)
    requires pos <= |lines| && BlockAt(lines, pos) == Skip(next)
    ensures ParseBlocks(lines, pos) == ParseBlocks(lines, next)
  {
  }

  /** What every parsed entry satisfies: a `usize` index and a speaker that passed the heuristic. */
  predicate EntryBounds(e: SrtEntry)
  {
    e.index < USIZE_LIMIT && (e.speaker.Some? ==> Utf8Len(e.speaker.value) < 50 && !Contains(e.speaker.value, "  "))
  }

  lemma EmittedBounds(lines: seq<string>, p: nat)
    requires p <= |lines| && BlockFrom(lines, p).Emit?
    ensures EntryBounds(BlockFrom(lines, p).entry)
  {
  }

  /** Every parsed entry satisfies `EntryBounds`. */
  lemma {:induction false} EntriesFromBlocks(lines: seq<string>, pos: nat)
    requires pos <= |lines|
    ensures forall k :: 0 <= k < |ParseBlocks(lines, pos)| ==> EntryBounds(ParseBlocks(lines, pos)[k])
    decreases |lines| - pos
  {
    match BlockAt(lines, pos)
    case Stop =>
    case Skip(next) => EntriesFromBlocks(lines, next);
    case Emit(e, next) =>
      EmittedBounds(lines, SkipBlank(lines, pos));
      EntriesFromBlocks(lines, next);
      assert ParseBlocks(lines, pos) == [e] + ParseBlocks(lines, next);
  }

  // ---------------------------------------------------------------- de-duplication

  /** The de-duplication key: start rounded to milliseconds (exact here) and text. */
  function Key(e: SrtEntry): (int, string) { (e.startMs, e.text) }

  function DedupWith(s: seq<SrtEntry>, seen: set<(int, string)>): seq<SrtEntry>
  {
    if s == [] then []
    else if Key(s[0]) in seen then DedupWith(s[1..], seen)
    else [s[0]] + DedupWith(s[1..], seen + {Key(s[0])})
  }

  function Dedup(s: seq<SrtEntry>): seq<SrtEntry> { DedupWith(s, {}) }

  predicate UniqueKeys(s: seq<SrtEntry>) { forall i, j :: 0 <= i < j < |s| ==> Key(s[i]) != Key(s[j]) }

  /** No earlier entry shares the key of entry i. */
  predicate FirstOfKey(s: seq<SrtEntry>, i: nat)
    requires i < |s|
  {
    forall j :: 0 <= j < i ==> Key(s[j]) != Key(s[i])
  }

  /** The keys already seen when `DedupWith` moves past the first entry. */
  function SeenAfter(s: seq<SrtEntry>, seen: set<(int, string)>): set<(int, string)>
    requires s != []
  {
    if Key(s[0]) in seen then seen else seen + {Key(s[0])}
  }

  /** What `DedupWith` does with the first entry: it is dropped when seen, kept in front otherwise. */
  lemma DedupWithFirstStep(s: seq<SrtEntry>, seen: set<(int, string)>)
    requires s != []
    ensures Key(s[0]) in seen ==> DedupWith(s, seen) == DedupWith(s[1..], SeenAfter(s, seen))
    ensures Key(s[0]) !in seen ==> DedupWith(s, seen) == [s[0]] + DedupWith(s[1..], SeenAfter(s, seen))
    ensures Key(s[0]) in SeenAfter(s, seen) && seen <= SeenAfter(s, seen)
  {
  }

  /** A kept entry's key was not seen before. */
  lemma {:induction false} DedupWithFresh(s: seq<SrtEntry>, seen: set<(int, string)>)
    ensures forall k :: 0 <= k < |DedupWith(s, seen)| ==> Key(DedupWith(s, seen)[k]) !in seen
  {
    if s != [] {
      var seen' := SeenAfter(s, seen);
      DedupWithFirstStep(s, seen);
      DedupWithFresh(s[1..], seen');
      var rest := DedupWith(s[1..], seen');
      if Key(s[0]) !in seen {
        var d := [s[0]] + rest;
        forall k | 0 <= k < |d| ensures Key(d[k]) !in seen {
          if k > 0 {
            assert d[k] == rest[k - 1];
          }
        }
      }
    }
  }

  /** The kept entries have pairwise distinct keys. */
  lemma {:induction false} DedupWithUnique(s: seq<SrtEntry>, seen: set<(int, string)>)
    ensures UniqueKeys(DedupWith(s, seen))
  {
    if s != [] {
      var seen' := SeenAfter(s, seen);
      DedupWithFirstStep(s, seen);
      DedupWithUnique(s[1..], seen');
      if Key(s[0]) !in seen {
        DedupWithFresh(s[1..], seen');
        var rest := DedupWith(s[1..], seen');
        var d := [s[0]] + rest;
        forall i, j | 0 <= i < j < |d| ensures Key(d[i]) != Key(d[j]) {
          assert d[j] == rest[j - 1];
          if i > 0 {
            assert d[i] == rest[i - 1];
          }
        }
      }
    }
  }

  /** An entry first of its key in the tail, with a key other than the head's, is first of its key. */
  lemma FirstOfKeyShift(s: seq<SrtEntry>, i: nat)
    requires i + 1 < |s| && FirstOfKey(s[1..], i) && Key(s[0]) != Key(s[i + 1])
    ensures FirstOfKey(s, i + 1)
  {
    forall j | 0 < j < i + 1 ensures Key(s[j]) != Key(s[i + 1]) {
      assert s[j] == s[1..][j - 1] && s[i + 1] == s[1..][i];
    }
  }

  /** An entry that is first of its key is also first of its key in the tail, and has another key than the head. */
  lemma FirstOfKeyTail(s: seq<SrtEntry>, i: nat)
    requires 0 < i < |s| && FirstOfKey(s, i)
    ensures FirstOfKey(s[1..], i - 1) && Key(s[i]) != Key(s[0])
  {
    forall j | 0 <= j < i - 1 ensures Key(s[1..][j]) != Key(s[1..][i - 1]) {
      assert s[1..][j] == s[j + 1] && s[1..][i - 1] == s[i];
    }
  }

  /** `e` is an entry of `s` that is the first of its key. */
  predicate IsFirstEntry(s: seq<SrtEntry>, e: SrtEntry)
  {
    exists i :: 0 <= i < |s| && s[i] == e && FirstOfKey(s, i)
  }

  /** A first entry of the tail whose key differs from the head's is a first entry. */
  lemma FirstEntryShift(s: seq<SrtEntry>, e: SrtEntry)
    requires s != [] && IsFirstEntry(s[1..], e) && Key(e) != Key(s[0])
    ensures IsFirstEntry(s, e)
  {
    var i' :| 0 <= i' < |s[1..]| && s[1..][i'] == e && FirstOfKey(s[1..], i');
    FirstOfKeyShift(s, i');
  }

  /** Every kept entry is the first entry of its key. */
  lemma {:induction false} DedupWithFirst(s: seq<SrtEntry>, seen: set<(int, string)>)
    ensures forall k :: 0 <= k < |DedupWith(s, seen)| ==> IsFirstEntry(s, DedupWith(s, seen)[k])
  {
    if s != [] {
      var seen' := SeenAfter(s, seen);
      DedupWithFirstStep(s, seen);
      DedupWithFirst(s[1..], seen');
      DedupWithFresh(s[1..], seen');
      var rest := DedupWith(s[1..], seen');
      FirstEntriesShift(s, rest);
      if Key(s[0]) !in seen {
        FirstEntriesCons(s, rest);
      }
    }
  }

  /** Entries first in the tail with keys other than the head's are first entries. */
  lemma FirstEntriesShift(s: seq<SrtEntry>, rest: seq<SrtEntry>)
    requires s != [] && forall k :: 0 <= k < |rest| ==> IsFirstEntry(s[1..], rest[k]) && Key(rest[k]) != Key(s[0])
    ensures forall k :: 0 <= k < |rest| ==> IsFirstEntry(s, rest[k])
  {
    forall k | 0 <= k < |rest| ensures IsFirstEntry(s, rest[k]) {
      FirstEntryShift(s, rest[k]);
    }
  }

  /** The head of `s` in front of first entries gives first entries. */
  lemma FirstEntriesCons(s: seq<SrtEntry>, rest: seq<SrtEntry>)
    requires s != [] && forall k :: 0 <= k < |rest| ==> IsFirstEntry(s, rest[k])
    ensures forall k :: 0 <= k < |[s[0]] + rest| ==> IsFirstEntry(s, ([s[0]] + rest)[k])
  {
    var d := [s[0]] + rest;
    forall k | 0 <= k < |d| ensures IsFirstEntry(s, d[k]) {
      if k == 0 {
        assert s[0] == d[0] && FirstOfKey(s, 0);
      } else {
        assert d[k] == rest[k - 1];
      }
    }
  }

  /** Every entry that is first of its key, with a key not seen before, is kept. */
  lemma {:induction false} DedupWithComplete(s: seq<SrtEntry>, seen: set<(int, string)>)
    ensures forall i :: 0 <= i < |s| && FirstOfKey(s, i) && Key(s[i]) !in seen ==> s[i] in DedupWith(s, seen)
  {
    if s != [] {
      var seen' := SeenAfter(s, seen);
      DedupWithFirstStep(s, seen);
      DedupWithComplete(s[1..], seen');
      var d := DedupWith(s, seen);
      forall i | 0 <= i < |s| && FirstOfKey(s, i) && Key(s[i]) !in seen ensures s[i] in d {
        if i > 0 {
          FirstOfKeyTail(s, i);
          assert s[1..][i - 1] == s[i];
        }
      }
    }
  }

  /** Dedup keeps exactly one entry per key: the first one in file order. */
  lemma DedupKeepsFirst(s: seq<SrtEntry>)
    ensures UniqueKeys(Dedup(s))
    ensures forall k :: 0 <= k < |Dedup(s)| ==> exists i :: 0 <= i < |s| && s[i] == Dedup(s)[k] && FirstOfKey(s, i)
    ensures forall i :: 0 <= i < |s| && FirstOfKey(s, i) ==> s[i] in Dedup(s)
  {
    DedupWithUnique(s, {});
    DedupWithFirst(s, {});
    DedupWithComplete(s, {});
  }

  // ---------------------------------------------------------------- sorting (stable `sort_by` on start)

  predicate SortedByStart(s: seq<SrtEntry>) { forall i, j :: 0 <= i < j < |s| ==> s[i].startMs <= s[j].startMs }

  /** Inserts after every entry that starts no later, so equal starts keep their order. */
  function InsertByStart(e: SrtEntry, s: seq<SrtEntry>): (r: seq<SrtEntry>)
    ensures multiset(r) == multiset(s) + multiset{e}
    ensures SortedByStart(s) ==> SortedByStart(r)
  {
    if s == [] then [e]
    else if s[|s| - 1].startMs <= e.startMs then s + [e]
    else
      var t := InsertByStart(e, s[..|s| - 1]);
      assert s == s[..|s| - 1] + [s[|s| - 1]];
      InsertedBeforeLast(e, s, t);
      t + [s[|s| - 1]]
  }

  /** Putting the last entry back after the insertion into the rest keeps a sorted sequence sorted. */
  lemma InsertedBeforeLast(e: SrtEntry, s: seq<SrtEntry>, t: seq<SrtEntry>)
    requires |s| > 0 && e.startMs < s[|s| - 1].startMs
    requires multiset(t) == multiset(s[..|s| - 1]) + multiset{e}
    requires SortedByStart(s[..|s| - 1]) ==> SortedByStart(t)
    ensures SortedByStart(s) ==> SortedByStart(t + [s[|s| - 1]])
  {
    if SortedByStart(s) {
      var init, last := s[..|s| - 1], s[|s| - 1];
      assert SortedByStart(init);
      forall k | 0 <= k < |t| ensures t[k].startMs <= last.startMs {
        assert t[k] in multiset(t);
        if t[k] != e {
          assert t[k] in multiset(init);
          var q :| 0 <= q < |init| && init[q] == t[k];
          assert init[q] == s[q];
        }
      }
    }
  }

  function SortByStart(s: seq<SrtEntry>): (r: seq<SrtEntry>)
    ensures multiset(r) == multiset(s)
    ensures SortedByStart(r)
  {
    if s == [] then []
    else
      assert s == s[..|s| - 1] + [s[|s| - 1]];
      InsertByStart(s[|s| - 1], SortByStart(s[..|s| - 1]))
  }

  /** The entries that start at `t`, in order. */
  function WithStart(s: seq<SrtEntry>, t: nat): seq<SrtEntry>
  {
    if s == [] then [] else WithStart(s[..|s| - 1], t) + AtStart(s[|s| - 1], t)
  }

  /** The entry alone when it starts at `t`, nothing otherwise. */
  function AtStart(e: SrtEntry, t: nat): seq<SrtEntry>
  {
    if e.startMs == t then [e] else []
  }

  lemma WithStartSnoc(s: seq<SrtEntry>, e: SrtEntry, t: nat)
    ensures WithStart(s + [e], t) == WithStart(s, t) + AtStart(e, t)
  {
    assert (s + [e])[..|s|] == s;
  }

  /** Two entries with different starts cannot both start at `t`, so their order does not matter. */
  lemma AtStartSwap(a: seq<SrtEntry>, e: SrtEntry, last: SrtEntry, t: nat)
    requires e.startMs != last.startMs
    ensures (a + AtStart(e, t)) + AtStart(last, t) == (a + AtStart(last, t)) + AtStart(e, t)
  {
    if e.startMs == t {
      assert AtStart(last, t) == [];
    }
  }

  /** Inserting puts the new entry after every entry with its start, and moves no other such entry. */
  lemma {:induction false} InsertByStartStable(e: SrtEntry, s: seq<SrtEntry>, t: nat)
    ensures WithStart(InsertByStart(e, s), t) == WithStart(s, t) + AtStart(e, t)
    decreases |s|
  {
    if s == [] {
      assert InsertByStart(e, s) == [] + [e];
      WithStartSnoc([], e, t);
    } else {
      var init, last := s[..|s| - 1], s[|s| - 1];
      assert s == init + [last];
      InsertByStartStable(e, init, t);
      if last.startMs <= e.startMs {
        InsertAfterLastStable(e, init, last, t);
      } else {
        InsertBeforeLastStable(e, init, last, t);
      }
    }
  }

  /** The step of `InsertByStartStable` where the new entry goes after the last one. */
  lemma InsertAfterLastStable(e: SrtEntry, init: seq<SrtEntry>, last: SrtEntry, t: nat)
    requires last.startMs <= e.startMs
    ensures WithStart(InsertByStart(e, init + [last]), t) == WithStart(init + [last], t) + AtStart(e, t)
  {
    assert InsertByStart(e, init + [last]) == (init + [last]) + [e];
    WithStartSnoc(init + [last], e, t);
  }

  /** The step of `InsertByStartStable` where the new entry goes before the last one. */
  lemma InsertBeforeLastStable(e: SrtEntry, init: seq<SrtEntry>, last: SrtEntry, t: nat)
    requires e.startMs < last.startMs
    requires WithStart(InsertByStart(e, init), t) == WithStart(init, t) + AtStart(e, t)
    ensures WithStart(InsertByStart(e, init + [last]), t) == WithStart(init + [last], t) + AtStart(e, t)
  {
    InsertBeforeLast(e, init, last);
    WithStartSnoc(InsertByStart(e, init), last, t);
    WithStartSnoc(init, last, t);
    AtStartSwap(WithStart(init, t), e, last, t);
  }

  lemma InsertBeforeLast(e: SrtEntry, init: seq<SrtEntry>, last: SrtEntry)
    requires e.startMs < last.startMs
    ensures InsertByStart(e, init + [last]) == InsertByStart(e, init) + [last]
  {
    assert (init + [last])[..|init|] == init;
  }

  /** The sort is stable: entries with the same start keep their relative order (`sort_by` is stable). */
  lemma {:induction false} SortByStartStable(s: seq<SrtEntry>, t: nat)
    ensures WithStart(SortByStart(s), t) == WithStart(s, t)
    decreases |s|
  {
    if s != [] {
      var init, last := s[..|s| - 1], s[|s| - 1];
      SortByStartStable(init, t);
      InsertByStartStable(last, SortByStart(init), t);
    }
  }

  /** An entry occurs once in a sequence whose keys are unique. */
  lemma UniqueOccursOnce(s: seq<SrtEntry>, i: nat)
    requires UniqueKeys(s) && i < |s|
    ensures multiset(s)[s[i]] == 1
  {
    assert s == s[..i] + [s[i]] + s[i + 1..];
    var before, after := s[..i], s[i + 1..];
    assert s[i] !in multiset(before) by {
      forall q | 0 <= q < |before| ensures before[q] != s[i] { assert before[q] == s[q]; }
    }
    assert s[i] !in multiset(after) by {
      forall q | 0 <= q < |after| ensures after[q] != s[i] { assert after[q] == s[i + 1 + q]; }
    }
  }

  /** Two positions holding equal entries make that entry occur at least twice. */
  lemma TwiceAtTwoPositions(t: seq<SrtEntry>, i: nat, j: nat)
    requires i < j < |t| && t[i] == t[j]
    ensures multiset(t)[t[i]] >= 2
  {
    assert t == t[..j] + t[j..];
    assert t[i] == t[..j][i];
    assert t[j] == t[j..][0];
    assert multiset(t) == multiset(t[..j]) + multiset(t[j..]);
  }

  /** A permutation of a sequence with unique keys has unique keys. */
  lemma UniqueKeysByMultiset(s: seq<SrtEntry>, t: seq<SrtEntry>)
    requires multiset(s) == multiset(t) && UniqueKeys(s)
    ensures UniqueKeys(t)
  {
    forall i, j | 0 <= i < j < |t| ensures Key(t[i]) != Key(t[j]) {
      assert t[i] in multiset(s) && t[j] in multiset(s);
      var a :| 0 <= a < |s| && s[a] == t[i];
      var b :| 0 <= b < |s| && s[b] == t[j];
      if a != b {
        assert Key(s[a]) != Key(s[b]) by {
          if a < b {} else {}
        }
      } else {
        UniqueOccursOnce(s, a);
        TwiceAtTwoPositions(t, i, j);
      }
    }
  }

  // ---------------------------------------------------------------- the whole file

  /** Entries of `s` numbered 1..n in order, the rest of each entry unchanged. */
  function Reindexed(s: seq<SrtEntry>): seq<SrtEntry>
  {
    seq(|s|, j requires 0 <= j < |s| => s[j].(index := j + 1))
  }

  /** Collects the trimmed text lines up to the next blank line. */
  method ReadText(lines: seq<string>, start: nat) returns (textParts: seq<string>, pos: nat)
    requires start <= |lines|
    ensures pos == TextEnd(lines, start)
    ensures textParts == TrimmedLines(lines, start, pos)
  {
    textParts := [];
    pos := start;
    while pos < |lines| && !IsBlank(lines[pos])
      invariant start <= pos <= |lines|
      invariant textParts == TrimmedLines(lines, start, pos)
      invariant TextEnd(lines, pos) == TextEnd(lines, start)
    {
      textParts := textParts + [Trim(lines[pos])];
      pos := pos + 1;
    }
  }

  /** The block whose index line is line `p`, read as `parse_srt`'s loop body does. */
  method ReadBlock(lines: seq<string>, p: nat) returns (step: Step<SrtEntry>)
    requires p <= |lines|
    ensures step == BlockFrom(lines, p)
  {
    if p >= |lines| { return Stop; }
    var index := ParseUsize(Trim(lines[p]));
    if index.None? { return Skip(p + 1); }
    if p + 1 >= |lines| { return Stop; }
    var times := ParseTimestampLine(Trim(lines[p + 1]));
    if times.None? { return Skip(p + 2); }
    var textParts, end := ReadText(lines, p + 2);
    var split := SplitSpeaker(Join(textParts, " "));
    step := Emit(SrtEntry(index.value, times.value.0, times.value.1, split.0, split.1), end);
  }

  /** The entries of every block, in file order. */
  method ParseEntries(lines: seq<string>) returns (parsed: seq<SrtEntry>)
    ensures parsed == ParseBlocks(lines, 0)
  {
    parsed := [];
    var pos := 0;
    while pos < |lines|
      invariant pos <= |lines|
      invariant parsed + ParseBlocks(lines, pos) == ParseBlocks(lines, 0)
      decreases |lines| - pos
    {
      var p := SkipBlankLines(lines, pos);
      var step := ReadBlock(lines, p);
      match step
      case Stop => return;
      case Skip(next) => pos := next;
      case Emit(e, next) =>
        parsed := parsed + [e];
        pos := next;
    }
  }

  /** Keeps the first entry of each (start, text) key, with a set of keys seen so far. */
  method DedupEntries(parsed: seq<SrtEntry>) returns (deduped: seq<SrtEntry>)
    ensures deduped == Dedup(parsed)
  {
    var seen: set<(int, string)> := {};
    deduped := [];
    var k := 0;
    while k < |parsed|
      invariant 0 <= k <= |parsed|
      invariant deduped + DedupWith(parsed[k..], seen) == Dedup(parsed)
    {
      assert parsed[k..][0] == parsed[k] && parsed[k..][1..] == parsed[k + 1..];
      var key := Key(parsed[k]);
      if key !in seen {
        seen := seen + {key};
        deduped := deduped + [parsed[k]];
      }
      k := k + 1;
    }
    assert parsed[|parsed|..] == [];
  }

  /** Numbers the entries from 1 in place. */
  method Renumber(sorted: seq<SrtEntry>) returns (entries: seq<SrtEntry>)
    ensures entries == Reindexed(sorted)
  {
    entries := sorted;
    var i := 0;
    while i < |entries|
      invariant 0 <= i <= |entries| == |sorted|
      invariant forall j :: 0 <= j < |entries| ==> entries[j] == if j < i then sorted[j].(index := j + 1) else sorted[j]
    {
      entries := entries[i := entries[i].(index := i + 1)];
      i := i + 1;
    }
  }

  /**
   * Re-indexing numbers the entries 1..n in their order and changes nothing else about them,
   * so the order by start and the uniqueness of keys survive it.
   */
  lemma ReindexedKeeps(s: seq<SrtEntry>)
    ensures |Reindexed(s)| == |s|
    ensures forall j :: 0 <= j < |s| ==> Reindexed(s)[j].index == j + 1 && Reindexed(s)[j].(index := 0) == s[j].(index := 0)
    ensures SortedByStart(s) ==> SortedByStart(Reindexed(s))
    ensures UniqueKeys(s) ==> UniqueKeys(Reindexed(s))
  {
    var r := Reindexed(s);
    assert forall j :: 0 <= j < |s| ==> Key(r[j]) == Key(s[j]) && r[j].startMs == s[j].startMs;
  }

  /**
   * `parse_srt` on the file's contents: parse the blocks, drop repeated (start, text) keys,
   * sort by start and number the entries from 1.
   */
  method ParseSrt(content: string) returns (entries: seq<SrtEntry>)
    ensures entries == Reindexed(SortByStart(Dedup(ParseBlocks(Lines(content), 0))))
    ensures SortedByStart(entries) && UniqueKeys(entries)
    ensures forall j :: 0 <= j < |entries| ==> entries[j].index == j + 1
  {
    var parsed := ParseEntries(Lines(content));
    var deduped := DedupEntries(parsed);
    var sorted := SortByStart(deduped);
    entries := Renumber(sorted);
    DedupKeepsFirst(parsed);
    UniqueKeysByMultiset(deduped, sorted);
    ReindexedKeeps(sorted);
  }
}
