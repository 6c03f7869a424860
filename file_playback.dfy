/**
 * The file playback worker (crates/transcription/src/file_playback.rs): a whole 16 kHz mono
 * recording is cut into detector chunks, flushed with silence, and every speech segment found
 * is transcribed like the live worker's. The detector is modelled by the events it returns for
 * each call, in call order; whether its model loads is an input.
 */
module FilePlayback {
  import opened Wrappers
  import opened Text
  import opened Worker

  /** Samples per detector chunk: 32 ms at 16 kHz. */
  const VAD_CHUNK_SIZE: nat := 512

  /** Silent chunks fed after the audio so that open speech ends. */
  const FLUSH_CHUNKS: nat := 30

  // A chunk lasts 32 ms: 512 samples at 16 samples per millisecond. Products and quotients
  // below write 512 and 32 out, so that the arithmetic stays linear.

  /** This file's own copy of the hallucination filter. */
  predicate IsHallucination(text: string)
  {
    var lower := ToLower(text);
    Contains(lower, "[blank_audio]")
    || Contains(lower, "[silence]")
    || Contains(lower, "[music]")
    || Contains(lower, "(silence)")
    || Contains(lower, "(music)")
    || lower == "you"
    || lower == "thank you."
    || lower == "thanks for watching!"
  }

  /** The two copies of the filter agree on every text. */
  lemma SameFilterAsWorker(text: string)
    ensures IsHallucination(text) == Worker.IsHallucination(text)
  {
  }

  // ---------------------------------------------------------------- chunking

  /** The full chunks of the audio in order; a short tail is not fed. */
  function AudioChunks(audio: seq<int>): (r: seq<seq<int>>)
    ensures |r| == |audio| / 512
    ensures forall i :: 0 <= i < |r| ==> |r[i]| == VAD_CHUNK_SIZE
  {
    FirstChunks(audio, |audio| / 512)
  }

  /** The first `n` chunks: chunk `i` holds samples `512 i` up to `512 i + 512`. */
  function FirstChunks(audio: seq<int>, n: nat): (r: seq<seq<int>>)
    requires 512 * n <= |audio|
    ensures |r| == n
    ensures forall i :: 0 <= i < n ==> r[i] == audio[512 * i..512 * i + 512]
  {
    if n == 0 then [] else FirstChunks(audio, n - 1) + [audio[512 * (n - 1)..512 * (n - 1) + 512]]
  }

  function Silence(): (r: seq<int>)
    ensures |r| == VAD_CHUNK_SIZE
  {
    seq(VAD_CHUNK_SIZE, _ => 0)
  }

  /** Everything the detector is fed: the full chunks, then the silent flush. */
  function Fed(audio: seq<int>): (r: seq<seq<int>>)
    ensures |r| == |audio| / 512 + FLUSH_CHUNKS
  {
    AudioChunks(audio) + Silences(FLUSH_CHUNKS)
  }

  /** `n` silent chunks. */
  function Silences(n: nat): (r: seq<seq<int>>)
    ensures |r| == n
  {
    if n == 0 then [] else Silences(n - 1) + [Silence()]
  }

  /** Lists laid end to end, in order. */
  function Flatten<T>(parts: seq<seq<T>>): seq<T>
  {
    if parts == [] then [] else Flatten(parts[..|parts| - 1]) + parts[|parts| - 1]
  }

  /** The first `n` chunks, laid end to end, are the first `512 n` samples. */
  lemma {:induction false} FlattenPrefix(audio: seq<int>, n: nat)
    requires 512 * n <= |audio|
    ensures Flatten(FirstChunks(audio, n)) == audio[..512 * n]
  {
    if n > 0 {
      FlattenPrefix(audio, n - 1);
      var c := FirstChunks(audio, n);
      assert c[..n - 1] == FirstChunks(audio, n - 1);
      assert audio[..512 * n] == audio[..512 * (n - 1)] + c[n - 1];
    }
  }

  /** Only the short tail is left out: at most 511 samples, and the chunks cover the rest in order. */
  lemma ChunksCoverAudio(audio: seq<int>)
    ensures Flatten(AudioChunks(audio)) == audio[..|audio| - |audio| % 512]
    ensures |audio| % 512 < 512
  {
    FlattenPrefix(audio, |audio| / 512);
  }

  // ---------------------------------------------------------------- segments

  /** The FINAL for a speech end: its duration up to `endMs`, under the id of its own start. */
  function EndSegment(sp: Speaker, audio: seq<int>, durationMs: nat, endMs: nat): SpeechSegment
  {
    var start := endMs - durationMs;
    SpeechSegment(audio, start, endMs, true, SegmentId(sp.roomHex, sp.userHex, start))
  }

  /** The segments of one call's events: each end becomes a FINAL ending at the call's offset; starts are ignored. */
  function ChunkSegments(sp: Speaker, events: seq<VadEvent>, endMs: nat): (r: seq<SpeechSegment>)
    ensures |r| == CountEnds(events)
    decreases |events|
  {
    if events == [] then []
    else match events[0]
      case SpeechStart => ChunkSegments(sp, events[1..], endMs)
      case SpeechEnd(audio, durationMs) => [EndSegment(sp, audio, durationMs, endMs)] + ChunkSegments(sp, events[1..], endMs)
  }

  /** The segments of the first `count` calls in call order; call `i` is made at offset `512 i`, that is `32 i` ms. */
  function CallSegments(sp: Speaker, vad: nat -> seq<VadEvent>, count: nat): seq<SpeechSegment>
  {
    if count == 0 then [] else CallSegments(sp, vad, count - 1) + ChunkSegments(sp, vad(count - 1), 32 * (count - 1))
  }

  /** The single segment used without a detector: the whole audio from 0. */
  function WholeAudio(sp: Speaker, audio: seq<int>): SpeechSegment
  {
    SpeechSegment(audio, 0, |audio| / 16, true, SegmentId(sp.roomHex, sp.userHex, 0))
  }

  /** `run_vad`: with a detector, the segments of every fed chunk in call order; without, the whole audio. */
  function RunVadSpec(sp: Speaker, audio: seq<int>, vadLoaded: bool, vad: nat -> seq<VadEvent>): seq<SpeechSegment>
  {
    if vadLoaded then CallSegments(sp, vad, |audio| / 512 + FLUSH_CHUNKS) else [WholeAudio(sp, audio)]
  }

  lemma {:induction false} ChunkSegmentsFinal(sp: Speaker, events: seq<VadEvent>, endMs: nat)
    ensures forall k :: 0 <= k < |ChunkSegments(sp, events, endMs)| ==>
      ChunkSegments(sp, events, endMs)[k].isFinal && ChunkSegments(sp, events, endMs)[k].endMs == endMs
    decreases |events|
  {
    if events != [] {
      ChunkSegmentsFinal(sp, events[1..], endMs);
    }
  }

  /** A FINAL ending before `bound`. */
  predicate FinalBefore(seg: SpeechSegment, bound: int) { seg.isFinal && seg.endMs < bound }

  /** The segments of the first `count` calls are FINALs ending before call `count` would be made. */
  lemma {:induction false} CallSegmentsFinal(sp: Speaker, vad: nat -> seq<VadEvent>, count: nat)
    ensures forall k :: 0 <= k < |CallSegments(sp, vad, count)| ==> FinalBefore(CallSegments(sp, vad, count)[k], 32 * count)
  {
    if count > 0 {
      var init, last := CallSegments(sp, vad, count - 1), ChunkSegments(sp, vad(count - 1), 32 * (count - 1));
      CallSegmentsFinal(sp, vad, count - 1);
      ChunkSegmentsFinal(sp, vad(count - 1), 32 * (count - 1));
      forall k | 0 <= k < |init + last| ensures FinalBefore((init + last)[k], 32 * count) {
        if k < |init| {
          assert (init + last)[k] == init[k];
        } else {
          assert (init + last)[k] == last[k - |init|];
        }
      }
    }
  }

  /**
   * Every segment `run_vad` returns is a FINAL, ending no later than the offset of the last
   * call; without a detector there is exactly one, from 0 over all the audio.
   */
  lemma RunVadAllFinal(sp: Speaker, audio: seq<int>, vadLoaded: bool, vad: nat -> seq<VadEvent>)
    ensures forall k :: 0 <= k < |RunVadSpec(sp, audio, vadLoaded, vad)| ==> RunVadSpec(sp, audio, vadLoaded, vad)[k].isFinal
    ensures vadLoaded ==> forall k :: 0 <= k < |RunVadSpec(sp, audio, vadLoaded, vad)| ==>
      RunVadSpec(sp, audio, vadLoaded, vad)[k].endMs < 32 * (|audio| / 512 + FLUSH_CHUNKS)
    ensures !vadLoaded ==> RunVadSpec(sp, audio, vadLoaded, vad) == [WholeAudio(sp, audio)]
    ensures WholeAudio(sp, audio).startMs == 0 && WholeAudio(sp, audio).audio == audio
  {
    if vadLoaded {
      CallSegmentsFinal(sp, vad, |audio| / 512 + FLUSH_CHUNKS);
    }
  }

  /** Handling event `i` keeps "handled so far, then the rest" equal to the whole call's segments. */
  lemma ChunkStep(sp: Speaker, events: seq<VadEvent>, i: nat, endMs: nat, segs: seq<SpeechSegment>)
    requires i < |events|
    requires segs + ChunkSegments(sp, events[i..], endMs) == ChunkSegments(sp, events, endMs)
    ensures events[i].SpeechStart? ==> segs + ChunkSegments(sp, events[i + 1..], endMs) == ChunkSegments(sp, events, endMs)
    ensures events[i].SpeechEnd? ==>
      (segs + [EndSegment(sp, events[i].audio, events[i].durationMs, endMs)]) + ChunkSegments(sp, events[i + 1..], endMs)
      == ChunkSegments(sp, events, endMs)
  {
    assert events[i..][0] == events[i];
    assert events[i..][1..] == events[i + 1..];
    if events[i].SpeechEnd? {
      var seg, rest := EndSegment(sp, events[i].audio, events[i].durationMs, endMs), ChunkSegments(sp, events[i + 1..], endMs);
      assert (segs + [seg]) + rest == segs + ([seg] + rest);
    }
  }

  /** The events of one detector call, handled in order. */
  method HandleChunkEvents(sp: Speaker, events: seq<VadEvent>, endMs: nat) returns (segs: seq<SpeechSegment>)
    ensures segs == ChunkSegments(sp, events, endMs)
  {
    segs := [];
    var i := 0;
    while i < |events|
      invariant 0 <= i <= |events|
      invariant segs + ChunkSegments(sp, events[i..], endMs) == ChunkSegments(sp, events, endMs)
    {
      ChunkStep(sp, events, i, endMs, segs);
      match events[i] {
        case SpeechStart =>
        case SpeechEnd(audio, durationMs) =>
          segs := segs + [EndSegment(sp, audio, durationMs, endMs)];
      }
      i := i + 1;
    }
    assert events[i..] == [];
  }

  lemma CallSegmentsSnoc(sp: Speaker, vad: nat -> seq<VadEvent>, count: nat)
    ensures CallSegments(sp, vad, count + 1) == CallSegments(sp, vad, count) + ChunkSegments(sp, vad(count), 32 * count)
  {
  }

  /** One detector call: the chunk is fed and its segments appended. */
  method FeedChunk(sp: Speaker, vad: nat -> seq<VadEvent>, call: nat, segments: seq<SpeechSegment>)
    returns (segments': seq<SpeechSegment>)
    requires segments == CallSegments(sp, vad, call)
    ensures segments' == CallSegments(sp, vad, call + 1)
  {
    var more := HandleChunkEvents(sp, vad(call), 32 * call);
    CallSegmentsSnoc(sp, vad, call);
    segments' := segments + more;
  }

  /**
   * `run_vad`: the audio in 512-sample chunks until a short one, then 30 silent chunks; the
   * sample offset advances one chunk per call, after the call's events are handled.
   */
  method RunVad(sp: Speaker, audio: seq<int>, vadLoaded: bool, vad: nat -> seq<VadEvent>)
    returns (segments: seq<SpeechSegment>, fed: seq<seq<int>>)
    ensures segments == RunVadSpec(sp, audio, vadLoaded, vad)
    ensures fed == if vadLoaded then Fed(audio) else []
  {
    if !vadLoaded {
      return [WholeAudio(sp, audio)], [];
    }
    var calls, sampleOffset;
    segments, fed, calls, sampleOffset := FeedAudio(sp, vad, audio);
    var flushed;
    segments, flushed, sampleOffset := Flush(sp, vad, calls, segments, sampleOffset);
    fed := fed + flushed;
  }

  /** The chunking loop of `run_vad`: full chunks are fed until fewer than 512 samples are left. */
  method FeedAudio(sp: Speaker, vad: nat -> seq<VadEvent>, audio: seq<int>)
    returns (segments: seq<SpeechSegment>, fed: seq<seq<int>>, calls: nat, sampleOffset: nat)
    ensures calls == |audio| / 512 && sampleOffset == 512 * calls
    ensures fed == AudioChunks(audio)
    ensures segments == CallSegments(sp, vad, calls)
  {
    segments, fed := [], [];
    sampleOffset, calls := 0, 0;
    while sampleOffset < |audio|
      invariant sampleOffset == 512 * calls && sampleOffset <= |audio|
      invariant fed == FirstChunks(audio, calls)
      invariant segments == CallSegments(sp, vad, calls)
      decreases |audio| - sampleOffset
    {
      var end := if sampleOffset + VAD_CHUNK_SIZE <= |audio| then sampleOffset + VAD_CHUNK_SIZE else |audio|;
      var chunk := audio[sampleOffset..end];
      if |chunk| < VAD_CHUNK_SIZE { break; }
      fed := fed + [chunk];
      segments := FeedChunk(sp, vad, calls, segments);
      sampleOffset, calls := sampleOffset + |chunk|, calls + 1;
    }
    ChunkCount(audio, calls, fed);
  }

  /** When fewer than 512 samples are left after `calls` chunks, all the full chunks have been fed. */
  lemma ChunkCount(audio: seq<int>, calls: nat, fed: seq<seq<int>>)
    requires 512 * calls <= |audio| < 512 * calls + 512
    requires fed == FirstChunks(audio, calls)
    ensures calls == |audio| / 512 && fed == AudioChunks(audio)
  {
  }

  /** The flush after the audio: 30 silent chunks fed as further calls. */
  method Flush(sp: Speaker, vad: nat -> seq<VadEvent>, n: nat, segments: seq<SpeechSegment>, sampleOffset: nat)
    returns (segments': seq<SpeechSegment>, flushed: seq<seq<int>>, sampleOffset': nat)
    requires segments == CallSegments(sp, vad, n)
    ensures segments' == CallSegments(sp, vad, n + FLUSH_CHUNKS)
    ensures flushed == Silences(FLUSH_CHUNKS)
    ensures sampleOffset' == sampleOffset + 512 * FLUSH_CHUNKS
  {
    segments', flushed, sampleOffset' := segments, [], sampleOffset;
    var call := n;
    for j := 0 to FLUSH_CHUNKS
      invariant call == n + j
      invariant sampleOffset' == sampleOffset + 512 * j
      invariant flushed == Silences(j)
      invariant segments' == CallSegments(sp, vad, call)
    {
      flushed := flushed + [Silence()];
      segments' := FeedChunk(sp, vad, call, segments');
      sampleOffset', call := sampleOffset' + VAD_CHUNK_SIZE, call + 1;
    }
  }

  /** The transcription loop of `run`, with this file's filter. */
  method TranscribeSegments(sp: Speaker, segs: seq<SpeechSegment>, asr: seq<int> -> AsrOutcome) returns (events: seq<TranscriptEvent>)
    ensures events == AsrEvents(sp, segs, asr)
  {
    events := [];
    var i := 0;
    while i < |segs|
      invariant 0 <= i <= |segs|
      invariant events + AsrEvents(sp, segs[i..], asr) == AsrEvents(sp, segs, asr)
    {
      AsrStep(sp, segs, i, asr, events);
      var o := asr(segs[i].audio);
      if o.Transcribed? {
        var text := Trim(o.text);
        SameFilterAsWorker(text);
        if text != [] && !IsHallucination(text) {
          events := events + [EventOf(sp, segs[i], o)];
        }
      }
      i := i + 1;
    }
    assert segs[i..] == [];
  }

  /**
   * `run`: nothing for an unreadable file; otherwise one event per segment whose transcription
   * is kept, in segment order, every one of them for a FINAL.
   */
  method Run(sp: Speaker, wav: Option<seq<int>>, vadLoaded: bool, vad: nat -> seq<VadEvent>, asr: seq<int> -> AsrOutcome)
    returns (events: seq<TranscriptEvent>)
    ensures wav.None? ==> events == []
    ensures wav.Some? ==> events == AsrEvents(sp, RunVadSpec(sp, wav.value, vadLoaded, vad), asr)
    ensures forall k :: 0 <= k < |events| ==> events[k].isFinal
  {
    if wav.None? { return []; }
    var segments, _ := RunVad(sp, wav.value, vadLoaded, vad);
    events := TranscribeSegments(sp, segments, asr);
    RunVadAllFinal(sp, wav.value, vadLoaded, vad);
    EventsFromKeptSegments(sp, segments, asr);
    forall k | 0 <= k < |events| ensures events[k].isFinal {
      assert FromKept(sp, segments, asr, events[k]);
    }
  }
}
