/**
 * The control logic of the live transcription worker (crates/transcription/src/worker.rs).
 * The ingestion loop reads RTP datagrams, conceals lost packets, decodes, resamples and feeds
 * the voice-activity detector, and sends PARTIAL and FINAL speech segments to the ASR loop,
 * which turns transcriptions into events. The RTP parser, Opus decoder, resampler, detector,
 * clock and ASR backend are not modelled: what they return is part of the input.
 * Times are integer milliseconds since the worker started; audio samples are integers.
 */
module Worker {
  import opened Wrappers
  import opened Text
  import opened Decimal

  // ---------------------------------------------------------------- hallucination filter

  /** `is_hallucination`: a placeholder marker anywhere in the lowercased text, or a stock phrase. */
  predicate IsHallucination(text: string)
  {
    var lower := ToLower(text);
    Contains(lower, "[blank_audio]")
    || Contains(lower, "[silence]")
    || Contains(lower, "[music]")
    || Contains(lower, "(silence)")
    || Contains(lower, "(music)")
    || lower == "you"
    || lower == "thank you."
    || lower == "thanks for watching!"
  }

  /** The markers matched anywhere in the text. */
  const MARKERS: seq<string> := ["[blank_audio]", "[silence]", "[music]", "(silence)", "(music)"]

  /** The phrases matched as the whole text. */
  const PHRASES: seq<string> := ["you", "thank you.", "thanks for watching!"]

  predicate NoUpper(s: string) { forall i :: 0 <= i < |s| ==> !IsUpper(s[i]) }

  lemma LowerOfNoUpper(s: string)
    requires NoUpper(s)
    ensures ToLower(s) == s
  {
  }

  lemma OccursContains(s: string, t: string, k: nat)
    requires OccursAt(s, t, k)
    ensures Contains(s, t)
  {
  }

  /** The filter does not depend on letter case. */
  lemma HallucinationIgnoresCase(text: string)
    ensures IsHallucination(ToLower(text)) == IsHallucination(text)
  {
    ToLowerIdempotent(text);
  }

  /** The markers are already lower case. */
  lemma MarkerLower(marker: string)
    requires marker in MARKERS
    ensures ToLower(marker) == marker
  {
    assert NoUpper(marker);
    LowerOfNoUpper(marker);
  }

  /** Text whose lowercase form contains a marker is a hallucination. */
  lemma ContainsMarker(text: string, marker: string)
    requires marker in MARKERS && Contains(ToLower(text), marker)
    ensures IsHallucination(text)
  {
  }

  lemma OccursBetween(a: string, m: string, b: string)
    ensures OccursAt(a + m + b, m, |a|)
  {
    assert (a + m + b)[|a|..|a| + |m|] == m;
  }

  /** A marker anywhere makes the text a hallucination, whatever surrounds it. */
  lemma MarkerAnywhere(before: string, marker: string, after: string)
    requires marker in MARKERS
    ensures IsHallucination(before + marker + after)
  {
    MarkerLower(marker);
    ToLowerAppend(before + marker, after);
    ToLowerAppend(before, marker);
    var lower := ToLower(before + marker + after);
    assert lower == ToLower(before) + marker + ToLower(after);
    OccursBetween(ToLower(before), marker, ToLower(after));
    OccursContains(lower, marker, |ToLower(before)|);
    ContainsMarker(before + marker + after, marker);
  }

  lemma AbsentFirstChar(s: string, t: string)
    requires |t| > 0 && t[0] !in s
    ensures !Contains(s, t)
  {
  }

  /** Lowercasing produces neither '[' nor '(' from another character. */
  lemma LowerKeepsBrackets(text: string)
    requires '[' !in text && '(' !in text
    ensures '[' !in ToLower(text) && '(' !in ToLower(text)
  {
    forall i | 0 <= i < |text| ensures ToLower(text)[i] != '[' && ToLower(text)[i] != '(' {
      assert ToLower(text)[i] == LowerChar(text[i]);
    }
  }

  /** Without '[' or '(' the text is a hallucination exactly when it is one of the phrases. */
  lemma BracketFreeHallucination(text: string)
    requires '[' !in text && '(' !in text
    ensures IsHallucination(text) <==> ToLower(text) in PHRASES
  {
    var lower := ToLower(text);
    LowerKeepsBrackets(text);
    AbsentFirstChar(lower, "[blank_audio]");
    AbsentFirstChar(lower, "[silence]");
    AbsentFirstChar(lower, "[music]");
    AbsentFirstChar(lower, "(silence)");
    AbsentFirstChar(lower, "(music)");
  }

  // ---------------------------------------------------------------- sequence numbers

  /** An RTP sequence number: 16 bits, wrapping. */
  type SeqNum = x: int | 0 <= x < 0x1_0000

  function WrappingAdd(a: SeqNum, b: SeqNum): SeqNum { (a + b) % 0x1_0000 }

  function WrappingSub(a: SeqNum, b: SeqNum): SeqNum { (a - b) % 0x1_0000 }

  /** The number that follows `prev` when nothing is lost. */
  function Expected(prev: SeqNum): SeqNum { WrappingAdd(prev, 1) }

  /** How many numbers were skipped between `prev` and `num`, counted modulo 2^16. */
  function Gap(prev: SeqNum, num: SeqNum): SeqNum { WrappingSub(WrappingSub(num, prev), 1) }

  /** Stepping `Gap` numbers past `prev`, and then one more, lands on `num`; no other count does. */
  lemma GapCountsSkipped(prev: SeqNum, num: SeqNum)
    ensures WrappingAdd(WrappingAdd(prev, Gap(prev, num)), 1) == num
    ensures forall k: SeqNum :: WrappingAdd(WrappingAdd(prev, k), 1) == num ==> k == Gap(prev, num)
    ensures Gap(prev, num) == 0 <==> num == Expected(prev)
  {
    GapValue(prev, num);
    forall k: SeqNum | WrappingAdd(WrappingAdd(prev, k), 1) == num ensures k == Gap(prev, num) {
      AddValue(prev, k);
    }
    AddValue(prev, Gap(prev, num));
  }

  /** The gap without the modulus: `num - prev - 1`, plus 2^16 when `num` is not ahead of `prev`. */
  lemma GapValue(prev: SeqNum, num: SeqNum)
    ensures Gap(prev, num) == if num > prev then num - prev - 1 else num - prev - 1 + 0x1_0000
  {
    var d := WrappingSub(num, prev);
    assert d == if num >= prev then num - prev else num - prev + 0x1_0000;
  }

  /** Two steps forward without the modulus. */
  lemma AddValue(prev: SeqNum, k: SeqNum)
    ensures WrappingAdd(WrappingAdd(prev, k), 1) == if prev + k + 1 >= 0x1_0000 then prev + k + 1 - 0x1_0000 else prev + k + 1
  {
    var a := WrappingAdd(prev, k);
    assert a == if prev + k >= 0x1_0000 then prev + k - 0x1_0000 else prev + k;
  }

  const MAX_PLC_FRAMES: nat := 3

  /** How many concealment frames a packet numbered `num` triggers after `last`. */
  function PlcFrames(last: Option<SeqNum>, num: SeqNum): (r: nat)
    ensures r <= MAX_PLC_FRAMES
    ensures last.None? ==> r == 0
    ensures r > 0 <==> last.Some? && num != Expected(last.value)
    ensures last.Some? ==> r <= Gap(last.value, num) && (r == MAX_PLC_FRAMES || r == Gap(last.value, num))
  {
    match last
    case None => 0
    case Some(prev) =>
      GapCountsSkipped(prev, num);
      if num == Expected(prev) then 0
      else if Gap(prev, num) < MAX_PLC_FRAMES then Gap(prev, num) else MAX_PLC_FRAMES
  }

  /** The concealment loop: one decode per frame, at most three. */
  method Conceal(last: Option<SeqNum>, num: SeqNum) returns (frames: nat)
    ensures frames == PlcFrames(last, num)
  {
    frames := 0;
    if last.Some? {
      var prev := last.value;
      if num != Expected(prev) {
        var gap := Gap(prev, num);
        var n := if gap < MAX_PLC_FRAMES then gap else MAX_PLC_FRAMES;
        for i := 0 to n
          invariant frames == i
        {
          frames := frames + 1;
        }
      }
    }
  }

  // ---------------------------------------------------------------- segments and ids

  datatype VadEvent = SpeechStart | SpeechEnd(audio: seq<int>, durationMs: nat)

  datatype SpeechSegment = SpeechSegment(audio: seq<int>, startMs: int, endMs: int, isFinal: bool, segmentId: SegmentId)

  /** `{:.3}` of a time in seconds, given in milliseconds. */
  function FormatSeconds(ms: int): string
  {
    if ms < 0 then "-" + FormatUnsigned(-ms) else FormatUnsigned(ms)
  }

  function FormatUnsigned(ms: nat): string
  {
    NatToString(ms / 1000) + (['.'] + PadDigits(NatToString(ms % 1000), 3))
  }

  /** The seconds in a segment id read back as the milliseconds they were made from. */
  lemma FormatSecondsRoundTrip(ms: nat)
    ensures ParseDecimalMilli(FormatSeconds(ms)) == Some(ms)
  {
    MilliTextRoundTrip(ms / 1000, ms % 1000, ms);
  }

  /** `w` whole seconds, a dot and `f` padded to three digits read back as `w * 1000 + f`. */
  lemma MilliTextRoundTrip(w: nat, f: nat, total: nat)
    requires f < 1000 && total == w * 1000 + f
    ensures ParseDecimalMilli(NatToString(w) + (['.'] + PadDigits(NatToString(f), 3))) == Some(total)
  {
    assert Pow10(3) == 1000;
    PaddedValue(f, 3);
    NatToStringRoundTrip(w);
    ParseFractionValue(NatToString(w), PadDigits(NatToString(f), 3), w, f);
  }

  /**
   * A segment id, kept as the room, the speaker and the start it is formatted from; `IdText`
   * is the text that is sent.
   */
  datatype SegmentId = SegmentId(roomHex: string, userHex: string, startMs: int)

  /** "{room_hex}:{user_hex}:{start:.3}". */
  function IdText(id: SegmentId): string
  {
    id.roomHex + ([':'] + (id.userHex + ([':'] + FormatSeconds(id.startMs))))
  }

  /** Two texts split at their first `c` when the parts before it contain none. */
  lemma SplitAtFirst(x: string, y: string, c: char, r1: string, r2: string)
    requires c !in x && c !in y
    requires x + ([c] + r1) == y + ([c] + r2)
    ensures x == y && r1 == r2
  {
    var t := x + ([c] + r1);
    assert t[|x|] == c && t[|y|] == c;
    assert x == t[..|x|] && y == t[..|y|];
    assert r1 == t[|x| + 1..] && r2 == t[|y| + 1..];
  }

  /**
   * The text of an id names it: with hex room and user names (no `:` in them) and a start
   * that is not negative, two ids with the same text are the same id.
   */
  lemma IdTextNamesId(a: SegmentId, b: SegmentId)
    requires ':' !in a.roomHex && ':' !in a.userHex && a.startMs >= 0
    requires ':' !in b.roomHex && ':' !in b.userHex && b.startMs >= 0
    ensures IdText(a) == IdText(b) <==> a == b
  {
    if IdText(a) == IdText(b) {
      SplitAtFirst(a.roomHex, b.roomHex, ':', a.userHex + ([':'] + FormatSeconds(a.startMs)), b.userHex + ([':'] + FormatSeconds(b.startMs)));
      SplitAtFirst(a.userHex, b.userHex, ':', FormatSeconds(a.startMs), FormatSeconds(b.startMs));
      FormatSecondsRoundTrip(a.startMs);
      FormatSecondsRoundTrip(b.startMs);
    }
  }

  // ---------------------------------------------------------------- ingestion

  /** Samples (0.5 s at 16 kHz) a PARTIAL needs buffered. */
  const MIN_PARTIAL_SAMPLES: nat := 8000

  datatype Config = Config(roomHex: string, userHex: string, partialIntervalMs: nat)

  /**
   * One received datagram and what the code the loop calls makes of it: the sequence number
   * when it parses as RTP, the payload length, whether Opus decoding succeeds, the resampled
   * length (None on a resampler error), the detector's events for the audio, whether speech
   * is active and what is buffered afterwards, and the clock.
   */
  datatype RtpInput = RtpInput(
    sequence: Option<SeqNum>,
    payloadLen: nat,
    decoded: bool,
    resampled: Option<nat>,
    events: seq<VadEvent>,
    speechActive: bool,
    speechBuffer: seq<int>,
    nowMs: nat)

  /** The utterance timing the loop keeps: `segment_start_time` and `last_partial_at`. */
  datatype Utterance = Utterance(startMs: nat, lastPartialAtMs: nat)

  /** The loop's variables: `last_seq` and the utterance timing. */
  datatype IngestState = IngestState(lastSeq: Option<SeqNum>, utterance: Utterance)

  const INITIAL_STATE: IngestState := IngestState(None, Utterance(0, 0))

  /** A packet is accepted when it parses and has a payload; only then is `last_seq` updated. */
  predicate Accepted(p: RtpInput) { p.sequence.Some? && p.payloadLen > 0 }

  /** An accepted packet whose audio reaches the detector. */
  predicate Usable(p: RtpInput) { Accepted(p) && p.decoded && p.resampled.Some? && p.resampled.value > 0 }

  function CountEnds(events: seq<VadEvent>): nat
  {
    if events == [] then 0 else (if events[0].SpeechEnd? then 1 else 0) + CountEnds(events[1..])
  }

  predicate NoSpeechStart(events: seq<VadEvent>) { forall k :: 0 <= k < |events| ==> events[k].SpeechEnd? }

  datatype EventsOutcome = EventsOutcome(utterance: Utterance, finals: seq<SpeechSegment>)

  /** The FINAL an end sends: its duration up to now, under the id of the utterance's start. */
  function FinalOf(cfg: Config, u: Utterance, audio: seq<int>, durationMs: nat, nowMs: nat): SpeechSegment
  {
    SpeechSegment(audio, nowMs - durationMs, nowMs, true, SegmentId(cfg.roomHex, cfg.userHex, u.startMs))
  }

  /** The detector's events in order: a start restarts the utterance and the partial timer; each end sends one FINAL. */
  function ProcessEvents(cfg: Config, u: Utterance, events: seq<VadEvent>, nowMs: nat): (r: EventsOutcome)
    ensures |r.finals| == CountEnds(events)
    decreases |events|
  {
    if events == [] then EventsOutcome(u, [])
    else match events[0]
      case SpeechStart => ProcessEvents(cfg, Utterance(nowMs, nowMs), events[1..], nowMs)
      case SpeechEnd(audio, durationMs) =>
        var rest := ProcessEvents(cfg, u, events[1..], nowMs);
        EventsOutcome(rest.utterance, [FinalOf(cfg, u, audio, durationMs, nowMs)] + rest.finals)
  }

  /**
   * Every segment the events send is a FINAL ending now; without a start among them the
   * utterance is unchanged and every FINAL carries its id.
   */
  lemma {:induction false} FinalsOfEvents(cfg: Config, u: Utterance, events: seq<VadEvent>, nowMs: nat)
    ensures forall k :: 0 <= k < |ProcessEvents(cfg, u, events, nowMs).finals| ==>
      ProcessEvents(cfg, u, events, nowMs).finals[k].isFinal && ProcessEvents(cfg, u, events, nowMs).finals[k].endMs == nowMs
    ensures NoSpeechStart(events) ==> ProcessEvents(cfg, u, events, nowMs).utterance == u
    ensures NoSpeechStart(events) ==> forall k :: 0 <= k < |ProcessEvents(cfg, u, events, nowMs).finals| ==>
      ProcessEvents(cfg, u, events, nowMs).finals[k].segmentId == SegmentId(cfg.roomHex, cfg.userHex, u.startMs)
    decreases |events|
  {
    if events != [] {
      var r := ProcessEvents(cfg, u, events, nowMs);
      var u' := if events[0].SpeechStart? then Utterance(nowMs, nowMs) else u;
      var rest := ProcessEvents(cfg, u', events[1..], nowMs);
      FinalsOfEvents(cfg, u', events[1..], nowMs);
      if NoSpeechStart(events) {
        forall k | 0 <= k < |events[1..]| ensures events[1..][k].SpeechEnd? { assert events[1..][k] == events[k + 1]; }
      }
      if events[0].SpeechEnd? {
        forall k | 0 <= k < |r.finals| ensures r.finals[k] == if k == 0 then FinalOf(cfg, u, events[0].audio, events[0].durationMs, nowMs) else rest.finals[k - 1] {
        }
      }
    }
  }

  /** A PARTIAL is due while speech is active, the interval has passed and enough audio is buffered. */
  predicate PartialDue(cfg: Config, u: Utterance, p: RtpInput)
  {
    p.speechActive && p.nowMs >= u.lastPartialAtMs + cfg.partialIntervalMs && |p.speechBuffer| >= MIN_PARTIAL_SAMPLES
  }

  /** The PARTIAL: everything buffered, from the utterance's start to now, under the utterance's id. */
  function PartialOf(cfg: Config, u: Utterance, p: RtpInput): SpeechSegment
  {
    SpeechSegment(p.speechBuffer, u.startMs, p.nowMs, false, SegmentId(cfg.roomHex, cfg.userHex, u.startMs))
  }

  datatype StepOutcome = StepOutcome(state: IngestState, concealed: nat, sent: seq<SpeechSegment>)

  /**
   * One iteration of `ingestion_loop`: an unparsable or empty packet changes nothing; any other
   * packet conceals what it reveals lost and becomes `last_seq` before decoding can fail; only
   * audio that reaches the detector can send segments: a FINAL per speech end, then a PARTIAL
   * when one is due.
   */
  function Ingest(cfg: Config, s: IngestState, p: RtpInput): (r: StepOutcome)
    ensures !Accepted(p) ==> r == StepOutcome(s, 0, [])
    ensures Accepted(p) ==> r.state.lastSeq == p.sequence && r.concealed == PlcFrames(s.lastSeq, p.sequence.value)
    ensures !Usable(p) ==> r.sent == [] && r.state.utterance == s.utterance
    ensures Usable(p) ==> |r.sent| == CountEnds(p.events) + (if PartialDue(cfg, ProcessEvents(cfg, s.utterance, p.events, p.nowMs).utterance, p) then 1 else 0)
  {
    if !Accepted(p) then StepOutcome(s, 0, [])
    else
      var concealed := PlcFrames(s.lastSeq, p.sequence.value);
      if !Usable(p) then StepOutcome(s.(lastSeq := p.sequence), concealed, [])
      else
        var ev := ProcessEvents(cfg, s.utterance, p.events, p.nowMs);
        if PartialDue(cfg, ev.utterance, p) then
          StepOutcome(IngestState(p.sequence, ev.utterance.(lastPartialAtMs := p.nowMs)), concealed, ev.finals + [PartialOf(cfg, ev.utterance, p)])
        else StepOutcome(IngestState(p.sequence, ev.utterance), concealed, ev.finals)
  }

  /**
   * The FINALs come first, one per speech end; a PARTIAL, the last segment, carries the whole
   * speech buffer, at least `MIN_PARTIAL_SAMPLES` of it, and restarts the partial timer.
   */
  lemma StepSegments(cfg: Config, s: IngestState, p: RtpInput)
    ensures forall k :: 0 <= k < |Ingest(cfg, s, p).sent| ==> (Ingest(cfg, s, p).sent[k].isFinal <==> k < CountEnds(p.events))
    ensures forall k :: 0 <= k < |Ingest(cfg, s, p).sent| && !Ingest(cfg, s, p).sent[k].isFinal ==>
      Ingest(cfg, s, p).sent[k].audio == p.speechBuffer && |p.speechBuffer| >= MIN_PARTIAL_SAMPLES
      && Ingest(cfg, s, p).state.utterance.lastPartialAtMs == p.nowMs
  {
    if Usable(p) {
      FinalsOfEvents(cfg, s.utterance, p.events, p.nowMs);
    }
  }

  datatype RunOutcome = RunOutcome(state: IngestState, concealed: nat, sent: seq<SpeechSegment>)

  /** The loop over every datagram, in arrival order. */
  function IngestAll(cfg: Config, s: IngestState, packets: seq<RtpInput>): (r: RunOutcome)
    decreases |packets|
  {
    if packets == [] then RunOutcome(s, 0, [])
    else
      var o := Ingest(cfg, s, packets[0]);
      var rest := IngestAll(cfg, o.state, packets[1..]);
      RunOutcome(rest.state, o.concealed + rest.concealed, o.sent + rest.sent)
  }

  /** The sequence number of the last accepted packet, or `last` when none is accepted. */
  function LastAccepted(last: Option<SeqNum>, packets: seq<RtpInput>): Option<SeqNum>
    decreases |packets|
  {
    if packets == [] then last
    else LastAccepted(if Accepted(packets[0]) then packets[0].sequence else last, packets[1..])
  }

  function AcceptedCount(packets: seq<RtpInput>): nat
  {
    if packets == [] then 0 else (if Accepted(packets[0]) then 1 else 0) + AcceptedCount(packets[1..])
  }

  /** The speech ends reported for the packets whose audio reaches the detector. */
  function UsableEnds(packets: seq<RtpInput>): nat
  {
    if packets == [] then 0 else (if Usable(packets[0]) then CountEnds(packets[0].events) else 0) + UsableEnds(packets[1..])
  }

  function CountFinals(segs: seq<SpeechSegment>): nat
  {
    if segs == [] then 0 else (if segs[0].isFinal then 1 else 0) + CountFinals(segs[1..])
  }

  lemma {:induction false} CountFinalsAppend(a: seq<SpeechSegment>, b: seq<SpeechSegment>)
    ensures CountFinals(a + b) == CountFinals(a) + CountFinals(b)
    decreases |a|
  {
    if a != [] {
      CountFinalsAppend(a[1..], b);
      assert (a + b)[0] == a[0];
      assert (a + b)[1..] == a[1..] + b;
    } else {
      assert a + b == b;
    }
  }

  lemma {:induction false} CountFinalsPrefix(segs: seq<SpeechSegment>, n: nat)
    requires n <= |segs|
    requires forall k :: 0 <= k < |segs| ==> (segs[k].isFinal <==> k < n)
    ensures CountFinals(segs) == n
    decreases |segs|
  {
    if segs != [] {
      forall k | 0 <= k < |segs[1..]| ensures (segs[1..][k].isFinal <==> k < n - 1) {
        assert segs[1..][k] == segs[k + 1];
      }
      if n == 0 {
        assert !segs[0].isFinal;
        CountFinalsPrefix(segs[1..], 0);
      } else {
        CountFinalsPrefix(segs[1..], n - 1);
      }
    }
  }

  lemma CountFinalsOfStep(cfg: Config, s: IngestState, p: RtpInput)
    ensures CountFinals(Ingest(cfg, s, p).sent) == (if Usable(p) then CountEnds(p.events) else 0)
  {
    StepSegments(cfg, s, p);
    CountFinalsPrefix(Ingest(cfg, s, p).sent, if Usable(p) then CountEnds(p.events) else 0);
  }

  /**
   * Over a whole run: every speech end of a usable packet sends exactly one FINAL, every
   * PARTIAL carries at least `MIN_PARTIAL_SAMPLES` samples, at most three concealment frames
   * are decoded per accepted packet, and the kept sequence number is the last accepted one.
   */
  lemma {:induction false} RunAccounting(cfg: Config, s: IngestState, packets: seq<RtpInput>)
    ensures CountFinals(IngestAll(cfg, s, packets).sent) == UsableEnds(packets)
    ensures forall k :: 0 <= k < |IngestAll(cfg, s, packets).sent| && !IngestAll(cfg, s, packets).sent[k].isFinal ==>
      |IngestAll(cfg, s, packets).sent[k].audio| >= MIN_PARTIAL_SAMPLES
    ensures IngestAll(cfg, s, packets).concealed <= 3 * AcceptedCount(packets)
    ensures IngestAll(cfg, s, packets).state.lastSeq == LastAccepted(s.lastSeq, packets)
    decreases |packets|
  {
    if packets != [] {
      var o := Ingest(cfg, s, packets[0]);
      var rest := IngestAll(cfg, o.state, packets[1..]);
      RunAccounting(cfg, o.state, packets[1..]);
      CountFinalsOfStep(cfg, s, packets[0]);
      StepSegments(cfg, s, packets[0]);
      CountFinalsAppend(o.sent, rest.sent);
      var all := o.sent + rest.sent;
      forall k | 0 <= k < |all| && !all[k].isFinal ensures |all[k].audio| >= MIN_PARTIAL_SAMPLES {
        if k >= |o.sent| { assert all[k] == rest.sent[k - |o.sent|]; }
      }
    }
  }

  /** Before the first accepted packet nothing is concealed: loss is only judged against a previous number. */
  lemma FirstPacketConcealsNothing(cfg: Config, p: RtpInput)
    ensures Ingest(cfg, INITIAL_STATE, p).concealed == 0
  {
  }

  lemma StepKeepsId(cfg: Config, s: IngestState, p: RtpInput)
    requires NoSpeechStart(p.events)
    ensures Ingest(cfg, s, p).state.utterance.startMs == s.utterance.startMs
    ensures forall k :: 0 <= k < |Ingest(cfg, s, p).sent| ==>
      Ingest(cfg, s, p).sent[k].segmentId == SegmentId(cfg.roomHex, cfg.userHex, s.utterance.startMs)
  {
    if Usable(p) {
      FinalsOfEvents(cfg, s.utterance, p.events, p.nowMs);
    }
  }

  /**
   * Between two speech starts, every PARTIAL and the FINAL that follows carry the same id,
   * the one made from the utterance's start.
   */
  lemma {:induction false} UtteranceKeepsId(cfg: Config, s: IngestState, packets: seq<RtpInput>)
    requires forall i :: 0 <= i < |packets| ==> NoSpeechStart(packets[i].events)
    ensures forall k :: 0 <= k < |IngestAll(cfg, s, packets).sent| ==>
      IngestAll(cfg, s, packets).sent[k].segmentId == SegmentId(cfg.roomHex, cfg.userHex, s.utterance.startMs)
    ensures IngestAll(cfg, s, packets).state.utterance.startMs == s.utterance.startMs
    decreases |packets|
  {
    if packets != [] {
      var o := Ingest(cfg, s, packets[0]);
      StepKeepsId(cfg, s, packets[0]);
      UtteranceKeepsId(cfg, o.state, packets[1..]);
      var rest := IngestAll(cfg, o.state, packets[1..]);
      var all := o.sent + rest.sent;
      forall k | 0 <= k < |all| ensures all[k].segmentId == SegmentId(cfg.roomHex, cfg.userHex, s.utterance.startMs) {
        if k >= |o.sent| { assert all[k] == rest.sent[k - |o.sent|]; }
      }
    }
  }

  /** One event handled: a start restarts the utterance, an end sends its FINAL before the rest. */
  lemma EventsUnfold(cfg: Config, u: Utterance, events: seq<VadEvent>, i: nat, nowMs: nat)
    requires i < |events|
    ensures events[i].SpeechStart? ==>
      ProcessEvents(cfg, u, events[i..], nowMs) == ProcessEvents(cfg, Utterance(nowMs, nowMs), events[i + 1..], nowMs)
    ensures events[i].SpeechEnd? ==>
      ProcessEvents(cfg, u, events[i..], nowMs).utterance == ProcessEvents(cfg, u, events[i + 1..], nowMs).utterance
    ensures events[i].SpeechEnd? ==>
      ProcessEvents(cfg, u, events[i..], nowMs).finals
        == [FinalOf(cfg, u, events[i].audio, events[i].durationMs, nowMs)] + ProcessEvents(cfg, u, events[i + 1..], nowMs).finals
  {
    assert events[i..][0] == events[i];
    assert events[i..][1..] == events[i + 1..];
  }

  /** The detector's events for one packet, handled in order. */
  method HandleEvents(cfg: Config, u: Utterance, events: seq<VadEvent>, nowMs: nat)
    returns (utterance: Utterance, finals: seq<SpeechSegment>)
    ensures EventsOutcome(utterance, finals) == ProcessEvents(cfg, u, events, nowMs)
  {
    utterance, finals := u, [];
    var i := 0;
    while i < |events|
      invariant 0 <= i <= |events|
      invariant ProcessEvents(cfg, utterance, events[i..], nowMs).utterance == ProcessEvents(cfg, u, events, nowMs).utterance
      invariant finals + ProcessEvents(cfg, utterance, events[i..], nowMs).finals == ProcessEvents(cfg, u, events, nowMs).finals
    {
      EventsUnfold(cfg, utterance, events, i, nowMs);
      match events[i] {
        case SpeechStart =>
          utterance := Utterance(nowMs, nowMs);
        case SpeechEnd(audio, durationMs) =>
          finals := finals + [FinalOf(cfg, utterance, audio, durationMs, nowMs)];
      }
      i := i + 1;
    }
    assert events[i..] == [];
  }

  /** The body of the ingestion loop for one datagram. */
  method HandlePacket(cfg: Config, s: IngestState, p: RtpInput) returns (state: IngestState, concealed: nat, sent: seq<SpeechSegment>)
    ensures StepOutcome(state, concealed, sent) == Ingest(cfg, s, p)
  {
    state, concealed, sent := s, 0, [];
    if p.sequence.None? || p.payloadLen == 0 { return; }
    concealed := Conceal(state.lastSeq, p.sequence.value);
    state := state.(lastSeq := p.sequence);
    if !p.decoded || p.resampled.None? || p.resampled.value == 0 { return; }
    var utterance;
    utterance, sent := HandleEvents(cfg, state.utterance, p.events, p.nowMs);
    if PartialDue(cfg, utterance, p) {
      sent := sent + [PartialOf(cfg, utterance, p)];
      utterance := utterance.(lastPartialAtMs := p.nowMs);
    }
    state := state.(utterance := utterance);
  }

  /** The datagrams in arrival order, each handled by `HandlePacket`. */
  method IngestEach(cfg: Config, packets: seq<RtpInput>) returns (sent: seq<SpeechSegment>, concealed: nat)
    ensures RunOutcome(IngestAll(cfg, INITIAL_STATE, packets).state, concealed, sent) == IngestAll(cfg, INITIAL_STATE, packets)
  {
    var state := INITIAL_STATE;
    sent, concealed := [], 0;
    var i := 0;
    while i < |packets|
      invariant 0 <= i <= |packets|
      invariant IngestAll(cfg, state, packets[i..]).state == IngestAll(cfg, INITIAL_STATE, packets).state
      invariant sent + IngestAll(cfg, state, packets[i..]).sent == IngestAll(cfg, INITIAL_STATE, packets).sent
      invariant concealed + IngestAll(cfg, state, packets[i..]).concealed == IngestAll(cfg, INITIAL_STATE, packets).concealed
    {
      ghost var rest := IngestAll(cfg, Ingest(cfg, state, packets[i]).state, packets[i + 1..]);
      IngestAllUnfold(cfg, state, packets, i);
      var c, more;
      state, c, more := HandlePacket(cfg, state, packets[i]);
      assert (sent + more) + rest.sent == sent + (more + rest.sent);
      sent, concealed := sent + more, concealed + c;
      i := i + 1;
    }
    assert packets[i..] == [];
  }

  /** The loop over the datagrams from `i` on is the step on datagram `i`, then the loop over the rest. */
  lemma IngestAllUnfold(cfg: Config, s: IngestState, packets: seq<RtpInput>, i: nat)
    requires i < |packets|
    ensures var o := Ingest(cfg, s, packets[i]);
      var rest := IngestAll(cfg, o.state, packets[i + 1..]);
      IngestAll(cfg, s, packets[i..]) == RunOutcome(rest.state, o.concealed + rest.concealed, o.sent + rest.sent)
  {
    assert packets[i..][0] == packets[i];
    assert packets[i..][1..] == packets[i + 1..];
  }

  /**
   * `ingestion_loop` over the datagrams received until the channel closes. `created` says whether
   * the Opus decoder, the resampler and the speech detector could all be created; when one could
   * not, the task returns before reading a packet, so nothing is decoded and nothing is sent.
   */
  method IngestionLoop(cfg: Config, created: bool, packets: seq<RtpInput>) returns (sent: seq<SpeechSegment>, concealed: nat)
    ensures !created ==> sent == [] && concealed == 0
    ensures created ==> sent == IngestAll(cfg, INITIAL_STATE, packets).sent
    ensures created ==> CountFinals(sent) == UsableEnds(packets)
    ensures forall k :: 0 <= k < |sent| && !sent[k].isFinal ==> |sent[k].audio| >= MIN_PARTIAL_SAMPLES
    ensures concealed <= 3 * AcceptedCount(packets)
  {
    if !created {
      return [], 0;
    }
    sent, concealed := IngestEach(cfg, packets);
    RunAccounting(cfg, INITIAL_STATE, packets);
  }

  // ---------------------------------------------------------------- ASR loop

  /** What the ASR backend returns for a segment's audio, with the time the inference took. */
  datatype AsrOutcome =
    | Transcribed(text: string, language: Option<string>, confidence: Option<int>, inferenceMs: nat)
    | AsrFailed(message: string)

  datatype Speaker = Speaker(roomHex: string, userHex: string, name: string)

  datatype TranscriptEvent = TranscriptEvent(
    roomHex: string, userHex: string, speakerName: string, text: string,
    language: Option<string>, confidence: Option<int>, startMs: int, endMs: int,
    inferenceMs: nat, isFinal: bool, segmentId: SegmentId)

  /** A transcription is kept when its trimmed text is non-empty and not a hallucination. */
  predicate Kept(o: AsrOutcome) { o.Transcribed? && Trim(o.text) != [] && !IsHallucination(Trim(o.text)) }

  /** The event for a kept transcription: the segment's timing, finality and id, the trimmed text. */
  function EventOf(sp: Speaker, seg: SpeechSegment, o: AsrOutcome): (e: TranscriptEvent)
    requires o.Transcribed?
  {
    TranscriptEvent(sp.roomHex, sp.userHex, sp.name, Trim(o.text), o.language, o.confidence,
      seg.startMs, seg.endMs, o.inferenceMs, seg.isFinal, seg.segmentId)
  }

  /** The events of the segments in order, with the backend modelled as a function of the audio. */
  function AsrEvents(sp: Speaker, segs: seq<SpeechSegment>, asr: seq<int> -> AsrOutcome): (r: seq<TranscriptEvent>)
    ensures |r| <= |segs|
    decreases |segs|
  {
    if segs == [] then [] else KeptEvent(sp, segs[0], asr) + AsrEvents(sp, segs[1..], asr)
  }

  /** What one segment contributes: its event when the transcription is kept, nothing otherwise. */
  function KeptEvent(sp: Speaker, seg: SpeechSegment, asr: seq<int> -> AsrOutcome): seq<TranscriptEvent>
  {
    var o := asr(seg.audio);
    if Kept(o) then [EventOf(sp, seg, o)] else []
  }

  lemma AppendAssoc<T>(a: seq<T>, b: seq<T>, c: seq<T>)
    ensures a + (b + c) == (a + b) + c
  {
  }

  /** A failed or filtered segment does not stop the later ones: the events of a split run concatenate. */
  lemma {:induction false} AsrEventsAppend(sp: Speaker, a: seq<SpeechSegment>, b: seq<SpeechSegment>, asr: seq<int> -> AsrOutcome)
    ensures AsrEvents(sp, a + b, asr) == AsrEvents(sp, a, asr) + AsrEvents(sp, b, asr)
    decreases |a|
  {
    if a != [] {
      assert (a + b)[0] == a[0];
      assert (a + b)[1..] == a[1..] + b;
      AsrEventsAppend(sp, a[1..], b, asr);
      AppendAssoc(KeptEvent(sp, a[0], asr), AsrEvents(sp, a[1..], asr), AsrEvents(sp, b, asr));
    } else {
      assert a + b == b;
    }
  }

  /** `e` is the event of a kept segment among `segs`. */
  predicate FromKept(sp: Speaker, segs: seq<SpeechSegment>, asr: seq<int> -> AsrOutcome, e: TranscriptEvent)
  {
    exists i :: 0 <= i < |segs| && Kept(asr(segs[i].audio)) && e == EventOf(sp, segs[i], asr(segs[i].audio))
  }

  /** Every event comes from a kept segment, and it copies that segment's timing, finality and id. */
  lemma {:induction false} EventsFromKeptSegments(sp: Speaker, segs: seq<SpeechSegment>, asr: seq<int> -> AsrOutcome)
    ensures forall k :: 0 <= k < |AsrEvents(sp, segs, asr)| ==> FromKept(sp, segs, asr, AsrEvents(sp, segs, asr)[k])
    decreases |segs|
  {
    if segs != [] {
      EventsFromKeptSegments(sp, segs[1..], asr);
      if Kept(asr(segs[0].audio)) {
        FromKeptWhenKept(sp, segs, asr);
      } else {
        FromKeptWhenSkipped(sp, segs, asr);
      }
    }
  }

  /** A kept first segment puts its event before the tail's. */
  lemma FromKeptWhenKept(sp: Speaker, segs: seq<SpeechSegment>, asr: seq<int> -> AsrOutcome)
    requires segs != [] && Kept(asr(segs[0].audio))
    requires forall k :: 0 <= k < |AsrEvents(sp, segs[1..], asr)| ==> FromKept(sp, segs[1..], asr, AsrEvents(sp, segs[1..], asr)[k])
    ensures forall k :: 0 <= k < |AsrEvents(sp, segs, asr)| ==> FromKept(sp, segs, asr, AsrEvents(sp, segs, asr)[k])
  {
    var rest := AsrEvents(sp, segs[1..], asr);
    var e := EventOf(sp, segs[0], asr(segs[0].audio));
    assert AsrEvents(sp, segs, asr) == [e] + rest;
    FromKeptHead(sp, segs, asr);
    forall k | 0 <= k < |rest| ensures FromKept(sp, segs, asr, rest[k]) {
      FromKeptTail(sp, segs, asr, rest[k]);
    }
  }

  /** A skipped first segment leaves the tail's events. */
  lemma FromKeptWhenSkipped(sp: Speaker, segs: seq<SpeechSegment>, asr: seq<int> -> AsrOutcome)
    requires segs != [] && !Kept(asr(segs[0].audio))
    requires forall k :: 0 <= k < |AsrEvents(sp, segs[1..], asr)| ==> FromKept(sp, segs[1..], asr, AsrEvents(sp, segs[1..], asr)[k])
    ensures forall k :: 0 <= k < |AsrEvents(sp, segs, asr)| ==> FromKept(sp, segs, asr, AsrEvents(sp, segs, asr)[k])
  {
    var rest := AsrEvents(sp, segs[1..], asr);
    assert AsrEvents(sp, segs, asr) == rest;
    forall k | 0 <= k < |rest| ensures FromKept(sp, segs, asr, rest[k]) {
      FromKeptTail(sp, segs, asr, rest[k]);
    }
  }

  /** The event of a kept first segment comes from a kept segment. */
  lemma FromKeptHead(sp: Speaker, segs: seq<SpeechSegment>, asr: seq<int> -> AsrOutcome)
    requires segs != [] && Kept(asr(segs[0].audio))
    ensures FromKept(sp, segs, asr, EventOf(sp, segs[0], asr(segs[0].audio)))
  {
  }

  /** An event from a kept segment of the tail comes from a kept segment of the whole. */
  lemma FromKeptTail(sp: Speaker, segs: seq<SpeechSegment>, asr: seq<int> -> AsrOutcome, e: TranscriptEvent)
    requires segs != [] && FromKept(sp, segs[1..], asr, e)
    ensures FromKept(sp, segs, asr, e)
  {
    var i :| 0 <= i < |segs[1..]| && Kept(asr(segs[1..][i].audio)) && e == EventOf(sp, segs[1..][i], asr(segs[1..][i].audio));
    assert segs[1..][i] == segs[i + 1];
  }

  /** Every event carries trimmed, non-empty text that is not a hallucination. */
  lemma EventTextsKept(sp: Speaker, segs: seq<SpeechSegment>, asr: seq<int> -> AsrOutcome)
    ensures forall k :: 0 <= k < |AsrEvents(sp, segs, asr)| ==> var t := AsrEvents(sp, segs, asr)[k].text;
      t != [] && Trim(t) == t && !IsHallucination(t)
  {
    EventsFromKeptSegments(sp, segs, asr);
    forall k | 0 <= k < |AsrEvents(sp, segs, asr)|
      ensures var t := AsrEvents(sp, segs, asr)[k].text; t != [] && Trim(t) == t && !IsHallucination(t)
    {
      var i :| 0 <= i < |segs| && Kept(asr(segs[i].audio)) && AsrEvents(sp, segs, asr)[k] == EventOf(sp, segs[i], asr(segs[i].audio));
      TrimIdempotent(asr(segs[i].audio).text);
    }
  }

  /** When every segment is kept, there is one event per segment, in segment order. */
  lemma {:induction false} AllKeptAllSent(sp: Speaker, segs: seq<SpeechSegment>, asr: seq<int> -> AsrOutcome)
    requires forall i :: 0 <= i < |segs| ==> Kept(asr(segs[i].audio))
    ensures |AsrEvents(sp, segs, asr)| == |segs|
    ensures forall i :: 0 <= i < |segs| ==> Kept(asr(segs[i].audio)) && AsrEvents(sp, segs, asr)[i] == EventOf(sp, segs[i], asr(segs[i].audio))
    decreases |segs|
  {
    if segs != [] {
      var tail := segs[1..];
      assert forall i :: 0 <= i < |tail| ==> tail[i] == segs[i + 1];
      AllKeptAllSent(sp, tail, asr);
      var e, rest := EventOf(sp, segs[0], asr(segs[0].audio)), AsrEvents(sp, tail, asr);
      KeptFirst(sp, segs, asr);
      forall i | 0 <= i < |segs| ensures ([e] + rest)[i] == EventOf(sp, segs[i], asr(segs[i].audio)) {
        if i > 0 {
          assert ([e] + rest)[i] == rest[i - 1];
        }
      }
    }
  }

  /** A kept first segment puts its event in front of the tail's events. */
  lemma KeptFirst(sp: Speaker, segs: seq<SpeechSegment>, asr: seq<int> -> AsrOutcome)
    requires segs != [] && Kept(asr(segs[0].audio))
    ensures AsrEvents(sp, segs, asr) == [EventOf(sp, segs[0], asr(segs[0].audio))] + AsrEvents(sp, segs[1..], asr)
  {
  }

  /** Transcribing segment `i` keeps "events so far, then the rest" equal to the events of all segments. */
  lemma AsrStep(sp: Speaker, segs: seq<SpeechSegment>, i: nat, asr: seq<int> -> AsrOutcome, events: seq<TranscriptEvent>)
    requires i < |segs|
    requires events + AsrEvents(sp, segs[i..], asr) == AsrEvents(sp, segs, asr)
    ensures !Kept(asr(segs[i].audio)) ==> events + AsrEvents(sp, segs[i + 1..], asr) == AsrEvents(sp, segs, asr)
    ensures Kept(asr(segs[i].audio)) ==>
      (events + [EventOf(sp, segs[i], asr(segs[i].audio))]) + AsrEvents(sp, segs[i + 1..], asr) == AsrEvents(sp, segs, asr)
  {
    assert segs[i..][0] == segs[i] && segs[i..][1..] == segs[i + 1..];
    var k, rest := KeptEvent(sp, segs[i], asr), AsrEvents(sp, segs[i + 1..], asr);
    AppendAssoc(events, k, rest);
    if !Kept(asr(segs[i].audio)) {
      assert events + k == events;
    }
  }

  /** `asr_loop`: one transcription per segment; only kept ones become events. */
  method AsrLoop(sp: Speaker, segs: seq<SpeechSegment>, asr: seq<int> -> AsrOutcome) returns (events: seq<TranscriptEvent>)
    ensures events == AsrEvents(sp, segs, asr)
  {
    events := [];
    var i := 0;
    while i < |segs|
      invariant 0 <= i <= |segs|
      invariant events + AsrEvents(sp, segs[i..], asr) == AsrEvents(sp, segs, asr)
    {
      AsrStep(sp, segs, i, asr, events);
      var o := asr(segs[i].audio);
      if o.Transcribed? {
        var text := Trim(o.text);
        if text != [] && !IsHallucination(text) {
          events := events + [EventOf(sp, segs[i], o)];
        }
      }
      i := i + 1;
    }
    assert segs[i..] == [];
  }
}
