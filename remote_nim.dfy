/**
 * The remote speech-recognition backend of crates/transcription/src/asr/remote_nim.rs: the
 * recognition configuration it sends, the language codes it accepts, the 16-bit
 * little-endian audio layout, and how the batch response becomes a transcription result.
 * Connecting and the RPC itself are inputs, given as their outcomes.
 */
module RemoteNim {
  import opened Wrappers
  import opened Text

  type Byte = x: int | 0 <= x < 0x100
  type I16 = x: int | -0x8000 <= x < 0x8000

  const BACKEND_NAME: string := "remote_nim"
  const DEFAULT_LANGUAGE: string := "en-US"

  datatype RemoteNimBackend = RemoteNimBackend(endpoint: string, modelName: string)

  /** `new`: a missing model name is stored as the empty name. */
  function NewBackend(endpoint: string, modelName: Option<string>): RemoteNimBackend
  {
    RemoteNimBackend(endpoint, modelName.UnwrapOr(""))
  }

  // ---------------------------------------------------------------- languages

  /** `supports_language`: exactly English, German, French and Spanish. */
  predicate SupportsLanguage(lang: string) {
    lang == "en" || lang == "de" || lang == "fr" || lang == "es"
  }

  /**
   * The language code of the configuration: a supported two-letter hint gains its region,
   * any other hint is passed on unchanged, and no hint means US English.
   */
  function LanguageCode(hint: Option<string>): (r: string)
    ensures hint.None? ==> r == DEFAULT_LANGUAGE
    ensures hint.Some? ==> StartsWith(r, hint.value)
    ensures hint.Some? ==> (SupportsLanguage(hint.value) <==> r != hint.value)
    ensures hint.Some? && SupportsLanguage(hint.value) ==> |r| == 5 && r[2] == '-'
  {
    match hint
    case None => DEFAULT_LANGUAGE
    case Some(l) =>
      if l == "en" then "en-US"
      else if l == "de" then "de-DE"
      else if l == "fr" then "fr-FR"
      else if l == "es" then "es-ES"
      else l
  }

  // ---------------------------------------------------------------- configuration

  datatype AudioEncoding = Linear16

  datatype RecognitionConfig = RecognitionConfig(
    encoding: AudioEncoding,
    sampleRateHertz: int,
    languageCode: string,
    maxAlternatives: nat,
    model: string,
    enableAutomaticPunctuation: bool)

  const U32_LIMIT: nat := 0x1_0000_0000
  const I32_LIMIT: nat := 0x8000_0000

  /** `u32 as i32`: the same bits read as a signed 32-bit number. */
  function U32AsI32(n: nat): (r: int)
    requires n < U32_LIMIT
    ensures -(I32_LIMIT as int) <= r < I32_LIMIT as int
    ensures r % U32_LIMIT == n
    ensures n < I32_LIMIT ==> r == n
  {
    if n < I32_LIMIT then n else n - U32_LIMIT
  }

  /**
   * `make_config`: 16-bit linear PCM, one alternative, automatic punctuation on, the
   * backend's model and the language code of the hint.
   */
  function MakeConfig(b: RemoteNimBackend, hint: Option<string>, sampleRate: nat): (c: RecognitionConfig)
    requires sampleRate < U32_LIMIT
    ensures c.encoding == Linear16 && c.maxAlternatives == 1 && c.enableAutomaticPunctuation
    ensures c.model == b.modelName
    ensures c.languageCode == LanguageCode(hint)
    ensures c.sampleRateHertz % U32_LIMIT == sampleRate
    ensures sampleRate < I32_LIMIT ==> c.sampleRateHertz == sampleRate
  {
    RecognitionConfig(Linear16, U32AsI32(sampleRate), LanguageCode(hint), 1, b.modelName, true)
  }

  // ---------------------------------------------------------------- audio layout

  /** The two's-complement bits of a sample, as an unsigned 16-bit value. */
  function Bits16(s: I16): (u: nat)
    ensures u < 0x1_0000
    ensures u % 0x1_0000 == s % 0x1_0000
  {
    if s < 0 then s + 0x1_0000 else s
  }

  /** `i16::to_le_bytes`: the low byte, then the high byte. */
  function LeBytes(s: I16): (r: seq<Byte>)
    ensures |r| == 2
    ensures r[0] as int + 0x100 * (r[1] as int) == Bits16(s)
  {
    [Bits16(s) % 0x100, Bits16(s) / 0x100]
  }

  /** `i16::from_le_bytes`. */
  function FromLeBytes(lo: Byte, hi: Byte): I16
  {
    var u := lo as int + 0x100 * (hi as int);
    if u < 0x8000 then u else u - 0x1_0000
  }

  lemma LeBytesRoundTrip(s: I16)
    ensures FromLeBytes(LeBytes(s)[0], LeBytes(s)[1]) == s
  {
  }

  /** The bytes `pcm_f32_to_s16le` produces for already-quantised samples. */
  function PcmBytes(samples: seq<I16>): (r: seq<Byte>)
    ensures |r| == 2 * |samples|
  {
    if samples == [] then [] else PcmBytes(samples[..|samples| - 1]) + LeBytes(samples[|samples| - 1])
  }

  /** Sample `i` occupies bytes `2i` and `2i+1`, low byte first. */
  lemma {:induction false} PcmBytesLayout(samples: seq<I16>)
    ensures forall i :: 0 <= i < |samples| ==> PcmBytes(samples)[2 * i..2 * i + 2] == LeBytes(samples[i])
  {
    if samples != [] {
      var init := samples[..|samples| - 1];
      PcmBytesLayout(init);
      var r := PcmBytes(samples);
      assert r == PcmBytes(init) + LeBytes(samples[|samples| - 1]);
      forall i | 0 <= i < |samples|
        ensures r[2 * i..2 * i + 2] == LeBytes(samples[i])
      {
        if i < |init| {
          assert r[2 * i..2 * i + 2] == PcmBytes(init)[2 * i..2 * i + 2];
          assert init[i] == samples[i];
        } else {
          assert r[2 * i..2 * i + 2] == r[|PcmBytes(init)|..];
        }
      }
    }
  }

  /** Reading a little-endian byte stream back as samples. */
  function DecodeS16le(bytes: seq<Byte>): (r: seq<I16>)
    requires |bytes| % 2 == 0
    ensures |r| == |bytes| / 2
  {
    seq(|bytes| / 2, i requires 0 <= i < |bytes| / 2 => FromLeBytes(bytes[2 * i], bytes[2 * i + 1]))
  }

  /** The byte layout loses nothing: decoding the bytes gives the samples back. */
  lemma PcmBytesRoundTrip(samples: seq<I16>)
    ensures DecodeS16le(PcmBytes(samples)) == samples
  {
    var r := PcmBytes(samples);
    PcmBytesLayout(samples);
    forall i | 0 <= i < |samples|
      ensures DecodeS16le(r)[i] == samples[i]
    {
      assert r[2 * i..2 * i + 2] == LeBytes(samples[i]);
      assert r[2 * i] == LeBytes(samples[i])[0] && r[2 * i + 1] == LeBytes(samples[i])[1];
      LeBytesRoundTrip(samples[i]);
    }
  }

  /** `pcm_f32_to_s16le` after quantisation: the loop that extends the byte vector sample by sample. */
  method PcmToS16le(samples: seq<I16>) returns (bytes: seq<Byte>)
    ensures bytes == PcmBytes(samples)
  {
    bytes := [];
    var i := 0;
    while i < |samples|
      invariant 0 <= i <= |samples|
      invariant bytes == PcmBytes(samples[..i])
    {
      assert samples[..i + 1][..i] == samples[..i];
      bytes := bytes + LeBytes(samples[i]);
      i := i + 1;
    }
    assert samples[..|samples|] == samples;
  }

  // ---------------------------------------------------------------- batch recognition

  datatype AsrRequest = AsrRequest(samples: seq<I16>, languageHint: Option<string>, sampleRate: nat)

  datatype RecognizeRequest = RecognizeRequest(config: RecognitionConfig, audio: seq<Byte>)

  datatype Alternative = Alternative(transcript: string, confidence: real)
  datatype SpeechResult = SpeechResult(alternatives: seq<Alternative>, isFinal: bool)
  datatype RecognizeResponse = RecognizeResponse(results: seq<SpeechResult>)

  datatype TranscriptionResult = TranscriptionResult(text: string, language: Option<string>, confidence: Option<real>)

  /** The outcome of opening the channel: a malformed endpoint, a failed connection, or a connection. */
  datatype Connection = InvalidEndpoint(reason: string) | ConnectFailed(reason: string) | Connected

  /** The request `transcribe` sends. */
  function RecognizeRequestOf(b: RemoteNimBackend, req: AsrRequest): (r: RecognizeRequest)
    requires req.sampleRate < U32_LIMIT
    ensures r.config == MakeConfig(b, req.languageHint, req.sampleRate)
    ensures |r.audio| == 2 * |req.samples|
    ensures DecodeS16le(r.audio) == req.samples
  {
    PcmBytesRoundTrip(req.samples);
    RecognizeRequest(MakeConfig(b, req.languageHint, req.sampleRate), PcmBytes(req.samples))
  }

  /** The first alternative of the first result, if both exist. */
  function BestAlternative(resp: RecognizeResponse): (r: Option<Alternative>)
    ensures r.Some? <==> |resp.results| > 0 && |resp.results[0].alternatives| > 0
    ensures r.Some? ==> r.value == resp.results[0].alternatives[0]
  {
    if |resp.results| > 0 && |resp.results[0].alternatives| > 0 then Some(resp.results[0].alternatives[0]) else None
  }

  /**
   * The result extraction of `transcribe`: the text and confidence of the best
   * alternative, or empty text and no confidence; the language is never reported.
   */
  function ExtractResult(resp: RecognizeResponse): (r: TranscriptionResult)
    ensures r.language.None?
    ensures r.confidence.Some? <==> |resp.results| > 0 && |resp.results[0].alternatives| > 0
    ensures r.confidence.None? ==> r.text == ""
    ensures r.confidence.Some? ==> (r.text == resp.results[0].alternatives[0].transcript
      && r.confidence.value == resp.results[0].alternatives[0].confidence)
  {
    match BestAlternative(resp)
    case None => TranscriptionResult("", None, None)
    case Some(a) => TranscriptionResult(a.transcript, None, Some(a.confidence))
  }

  /**
   * `transcribe`: a connection failure or a failed RPC is an error with its message;
   * otherwise the extracted result of the response.
   */
  function Transcribe(b: RemoteNimBackend, conn: Connection, rpc: Result<RecognizeResponse, string>): (r: Result<TranscriptionResult, string>)
    ensures conn.InvalidEndpoint? ==> r == Err("Invalid NIM endpoint '" + b.endpoint + "': " + conn.reason)
    ensures conn.ConnectFailed? ==> r == Err("Failed to connect to NIM at '" + b.endpoint + "': " + conn.reason)
    ensures conn.Connected? && rpc.Err? ==> r == Err("NIM Recognize RPC failed: " + rpc.error)
    ensures r.Ok? <==> conn.Connected? && rpc.Ok?
    ensures r.Ok? ==> r.value == ExtractResult(rpc.value)
  {
    match conn
    case InvalidEndpoint(e) => Err("Invalid NIM endpoint '" + b.endpoint + "': " + e)
    case ConnectFailed(e) => Err("Failed to connect to NIM at '" + b.endpoint + "': " + e)
    case Connected =>
      match rpc
      case Err(e) => Err("NIM Recognize RPC failed: " + e)
      case Ok(resp) => Ok(ExtractResult(resp))
  }

  /** Extra results or alternatives after the first do not change what `transcribe` reports. */
  lemma ExtractIgnoresLaterResults(resp: RecognizeResponse, more: seq<SpeechResult>, extra: seq<Alternative>)
    requires |resp.results| > 0
    ensures var first := resp.results[0].(alternatives := resp.results[0].alternatives + extra);
      |resp.results[0].alternatives| > 0
      ==> ExtractResult(RecognizeResponse([first] + resp.results[1..] + more)) == ExtractResult(resp)
  {
  }
}
