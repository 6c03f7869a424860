/**
 * Reference-transcript parser for plain-text files (crates/transcription/src/pipeline/txt_parser.rs):
 * blocks of a "SPK_n" speaker line, an "M:SS" start line and text lines. Times are integer
 * milliseconds.
 */
module TxtParser {
  import opened Wrappers
  import opened Text
  import opened Blocks
  import opened Decimal

  datatype TxtEntry = TxtEntry(speaker: string, startMs: nat, endMs: nat, text: string)

  /** How long the last entry is taken to last when no entry follows it. */
  const LAST_ENTRY_MS: nat := 5000

  // ---------------------------------------------------------------- "M:SS"

  /** `parse_mm_ss`: exactly two ':' fields, minutes and seconds, to milliseconds. */
  function ParseMmSs(s: string): (r: Option<nat>)
    ensures r.Some? ==> |SplitOn(s, ':')| == 2
  {
    MinutesSeconds(SplitOn(s, ':'))
  }

  function MinutesSeconds(fields: seq<string>): (r: Option<nat>)
    ensures r.Some? ==> |fields| == 2
  {
    if |fields| != 2 then None
    else
      var m, sec := ParseDecimalMilli(fields[0]), ParseDecimalMilli(fields[1]);
      if m.Some? && sec.Some? then Some(m.value * 60 + sec.value) else None
  }

  /** The "M:SS" rendering of a start time in whole seconds. */
  function FormatMmSs(m: nat, sec: nat): string
    requires sec < 60
  {
    NatToString(m) + ([':'] + PadDigits(NatToString(sec), 2))
  }

  lemma MinutesSecondsOf(fields: seq<string>, m: nat, sec: nat)
    requires |fields| == 2
    requires ParseDecimalMilli(fields[0]) == Some(m) && ParseDecimalMilli(fields[1]) == Some(sec)
    ensures MinutesSeconds(fields) == Some(m * 60 + sec)
  {
  }

  /** Reading back a rendered "M:SS" gives its milliseconds. */
  lemma FormatThenParseMmSs(m: nat, sec: nat)
    requires sec < 60
    ensures ParseMmSs(FormatMmSs(m, sec)) == Some((m * 60 + sec) * 1000)
  {
    var M, S := NatToString(m), PadDigits(NatToString(sec), 2);
    assert Pow10(2) == 100;
    NatToStringShort(sec, 2);
    PadDigitsValue(NatToString(sec), 2);
    NatToStringRoundTrip(sec);
    NatToStringRoundTrip(m);
    NoDotInDigits(M);
    NoDotInDigits(S);
    SplitOnCons(M, ':', S);
    SplitOnAbsent(S, ':');
    ParseWholeField(M);
    ParseWholeField(S);
    MinutesSecondsOf([M, S], m * 1000, sec * 1000);
  }

  /** A time with other than one ':' is refused. */
  lemma ParseMmSsNeedsOneColon(s: string)
    requires ':' !in s
    ensures ParseMmSs(s).None?
  {
    SplitOnAbsent(s, ':');
  }

  // ---------------------------------------------------------------- blocks

  predicate IsSpeakerLine(line: string) { StartsWith(Trim(line), "SPK_") }

  /** A text line: not blank and not the speaker line of the next block. */
  predicate IsTextLine(line: string) { !IsBlank(line) && !IsSpeakerLine(line) }

  /** The end of the text lines from `pos`: the next blank line, speaker line or the end of the file. */
  function TextEnd(lines: seq<string>, pos: nat): (r: nat)
    requires pos <= |lines|
    ensures pos <= r <= |lines|
    ensures forall k {:trigger IsTextLine(lines[k])} :: pos <= k < r ==> IsTextLine(lines[k])
    decreases |lines| - pos
  {
    if pos < |lines| && IsTextLine(lines[pos]) then TextEnd(lines, pos + 1) else pos
  }

  function BlockAt(lines: seq<string>, pos: nat): (r: Step<TxtEntry>)
    requires pos <= |lines|
    ensures r.Skip? || r.Emit? ==> pos < r.next <= |lines|
  {
    BlockFrom(lines, SkipBlank(lines, pos))
  }

  /**
   * The block whose speaker line is line `p`: a line that is not a speaker line is dropped alone,
   * an unparsable start line drops itself and the speaker line, and a block without text is
   * dropped whole. The end time is filled in later.
   */
  function BlockFrom(lines: seq<string>, p: nat): (r: Step<TxtEntry>)
    requires p <= |lines|
    ensures r.Skip? || r.Emit? ==> p < r.next <= |lines|
  {
    if p >= |lines| then Stop
    else if !IsSpeakerLine(lines[p]) then Skip(p + 1)
    else if p + 1 >= |lines| then Stop
    else
      var start := ParseMmSs(Trim(lines[p + 1]));
      if start.None? then Skip(p + 2)
      else
        var end := TextEnd(lines, p + 2);
        var text := Join(TrimmedLines(lines, p + 2, end), " ");
        if text == [] then Skip(end) else Emit(TxtEntry(Trim(lines[p]), start.value, 0, text), end)
  }

  /** The entries of the blocks from line `pos` on, in file order, before end times are set. */
  function ParseBlocks(lines: seq<string>, pos: nat): seq<TxtEntry>
    requires pos <= |lines|
    decreases |lines| - pos
  {
    match BlockAt(lines, pos)
    case Stop => []
    case Skip(next) => ParseBlocks(lines, next)
    case Emit(e, next) => [e] + ParseBlocks(lines, next)
  }

  /** A line that is not a speaker line, where a block must start, is dropped alone. */
  lemma NonSpeakerLineSkipped(lines: seq<string>, p: nat)
    requires p < |lines| && !IsSpeakerLine(lines[p])
    ensures BlockFrom(lines, p) == Skip(p + 1)
  {
  }

  /** A start line that does not parse drops it and its speaker line. */
  lemma BadStartSkipped(lines: seq<string>, p: nat)
    requires p + 1 < |lines| && IsSpeakerLine(lines[p]) && ParseMmSs(Trim(lines[p + 1])).None?
    ensures BlockFrom(lines, p) == Skip(p + 2)
  {
  }

  /** A dropped block does not end the parse: it resumes after the dropped lines. */
  lemma ParseBlocksOfSkip(lines: seq<string>, pos: nat, next: nat)
    requires pos <= |lines| && BlockAt(lines, pos) == Skip(next)
    ensures ParseBlocks(lines, pos) == ParseBlocks(lines, next)
  {
  }

  /** What every parsed entry satisfies: a "SPK_" speaker, trimmed, and non-empty text. */
  predicate EntryShape(e: TxtEntry)
  {
    StartsWith(e.speaker, "SPK_") && Trim(e.speaker) == e.speaker && e.text != []
  }

  lemma EmittedShape(lines: seq<string>, p: nat)
    requires p <= |lines| && BlockFrom(lines, p).Emit?
    ensures EntryShape(BlockFrom(lines, p).entry)
  {
    TrimOfBlankFree(Trim(lines[p]));
  }

  /** Every parsed entry satisfies `EntryShape`. */
  lemma {:induction false} EntriesHaveShape(lines: seq<string>, pos: nat)
    requires pos <= |lines|
    ensures forall k :: 0 <= k < |ParseBlocks(lines, pos)| ==> EntryShape(ParseBlocks(lines, pos)[k])
    decreases |lines| - pos
  {
    match BlockAt(lines, pos)
    case Stop =>
    case Skip(next) => EntriesHaveShape(lines, next);
    case Emit(e, next) =>
      EmittedShape(lines, SkipBlank(lines, pos));
      EntriesHaveShape(lines, next);
      assert ParseBlocks(lines, pos) == [e] + ParseBlocks(lines, next);
  }

  // ---------------------------------------------------------------- end times

  /** Each entry ends where the next one starts; the last one `LAST_ENTRY_MS` after its start. */
  function WithEnds(s: seq<TxtEntry>): (r: seq<TxtEntry>)
    ensures |r| == |s|
  {
    seq(|s|, i requires 0 <= i < |s| => s[i].(endMs := if i + 1 < |s| then s[i + 1].startMs else s[i].startMs + LAST_ENTRY_MS))
  }

  /** Only end times change: speakers, starts and texts are kept, entries are not reordered. */
  lemma WithEndsKeeps(s: seq<TxtEntry>)
    ensures forall i :: 0 <= i < |s| ==>
      WithEnds(s)[i].speaker == s[i].speaker && WithEnds(s)[i].startMs == s[i].startMs && WithEnds(s)[i].text == s[i].text
    ensures forall i :: 0 <= i && i + 1 < |s| ==> WithEnds(s)[i].endMs == WithEnds(s)[i + 1].startMs
    ensures |s| > 0 ==> WithEnds(s)[|s| - 1].endMs == s[|s| - 1].startMs + LAST_ENTRY_MS
  {
  }

  // ---------------------------------------------------------------- the whole file

  /** The text lines of a block, read line by line up to the next blank or speaker line. */
  method ReadText(lines: seq<string>, start: nat) returns (textParts: seq<string>, pos: nat)
    requires start <= |lines|
    ensures pos == TextEnd(lines, start)
    ensures textParts == TrimmedLines(lines, start, pos)
  {
    textParts := [];
    pos := start;
    while pos < |lines| && IsTextLine(lines[pos])
      invariant start <= pos <= |lines|
      invariant textParts == TrimmedLines(lines, start, pos)
      invariant TextEnd(lines, pos) == TextEnd(lines, start)
    {
      textParts := textParts + [Trim(lines[pos])];
      pos := pos + 1;
    }
  }

  /** The block whose speaker line is line `p`, read as `parse_txt`'s loop body does. */
  method ReadBlock(lines: seq<string>, p: nat) returns (step: Step<TxtEntry>)
    requires p <= |lines|
    ensures step == BlockFrom(lines, p)
  {
    if p >= |lines| { return Stop; }
    if !IsSpeakerLine(lines[p]) { return Skip(p + 1); }
    var speaker := Trim(lines[p]);
    if p + 1 >= |lines| { return Stop; }
    var start := ParseMmSs(Trim(lines[p + 1]));
    if start.None? { return Skip(p + 2); }
    var textParts, end := ReadText(lines, p + 2);
    var text := Join(textParts, " ");
    if text == [] { return Skip(end); }
    step := Emit(TxtEntry(speaker, start.value, 0, text), end);
  }

  /** The entries of every block, in file order. */
  method ParseEntries(lines: seq<string>) returns (parsed: seq<TxtEntry>)
    ensures parsed == ParseBlocks(lines, 0)
  {
    parsed := [];
    var pos := 0;
    while pos < |lines|
      invariant pos <= |lines|
      invariant parsed + ParseBlocks(lines, pos) == ParseBlocks(lines, 0)
      decreases |lines| - pos
    {
      var p := SkipBlankLines(lines, pos);
      var step := ReadBlock(lines, p);
      match step
      case Stop => return;
      case Skip(next) => pos := next;
      case Emit(e, next) =>
        parsed := parsed + [e];
        pos := next;
    }
  }

  /** Sets every end time in place, front to back. */
  method FillEnds(parsed: seq<TxtEntry>) returns (entries: seq<TxtEntry>)
    ensures entries == WithEnds(parsed)
  {
    entries := parsed;
    var i := 0;
    while i < |entries|
      invariant 0 <= i <= |entries| == |parsed|
      invariant forall j :: 0 <= j < |entries| ==> entries[j] == if j < i then WithEnds(parsed)[j] else parsed[j]
    {
      var end := if i + 1 < |entries| then entries[i + 1].startMs else entries[i].startMs + LAST_ENTRY_MS;
      entries := entries[i := entries[i].(endMs := end)];
      i := i + 1;
    }
  }

  /** `parse_txt` on the file's contents. */
  method ParseTxt(content: string) returns (entries: seq<TxtEntry>)
    ensures entries == WithEnds(ParseBlocks(Lines(content), 0))
    ensures forall k :: 0 <= k < |entries| ==> EntryShape(entries[k])
    ensures forall k :: 0 <= k && k + 1 < |entries| ==> entries[k].endMs == entries[k + 1].startMs
  {
    var parsed := ParseEntries(Lines(content));
    entries := FillEnds(parsed);
    EntriesHaveShape(Lines(content), 0);
    WithEndsKeeps(parsed);
  }
}
