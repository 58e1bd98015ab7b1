/**
 * The audio manager: one shared playback slot (`currentSource`) for decoded
 * speech audio, the browser's speech synthesizer for text-to-speech, the
 * choice of a synthesizer voice, and the decoding of 16-bit little-endian PCM
 * bytes into samples. Playback is exclusive: every new playback first stops
 * whatever is playing, and a source's end event releases the slot only if the
 * source still owns it.
 *
 * The browser objects (audio context, buffer source, speech synthesizer) are
 * classes holding just the state the manager reads or changes. Float scaling
 * (`/ 32768.0`) and base64 decoding (`atob`) are not modelled: playback takes
 * the already-decoded binary string.
 */
module Audio {
  import opened Types
  import Text

  newtype byte = x: int | 0 <= x < 256

  // ---------------------------------------------------------------------
  // Voice choice
  // ---------------------------------------------------------------------

  datatype Voice = Voice(name: string, lang: string, localService: bool)

  /** What the synthesizer is asked to say; rate and pitch are the constants the manager sets. */
  datatype Utterance = Utterance(text: string, rate: real, pitch: real, lang: string, voice: Option<Voice>)

  /** The four searches of the voice choice, in priority order. */
  datatype VoiceRule = GoogleUsEnglish | Samantha | LocalUsEnglish | AnyEnglish

  predicate Matches(rule: VoiceRule, v: Voice) {
    match rule
    case GoogleUsEnglish => v.name == "Google US English"
    case Samantha => v.name == "Samantha"
    case LocalUsEnglish => v.lang == "en-US" && v.localService
    case AnyEnglish => Text.StartsWith(v.lang, "en")
  }

  /** `voices.find(...)` for one rule: the index of the first matching voice. */
  function FindFirst(voices: seq<Voice>, rule: VoiceRule): (r: Option<nat>)
    ensures r.Some? ==> r.value < |voices| && Matches(rule, voices[r.value])
    ensures r.Some? ==> forall j :: 0 <= j < r.value ==> !Matches(rule, voices[j])
    ensures r.None? ==> forall j :: 0 <= j < |voices| ==> !Matches(rule, voices[j])
  {
    if voices == [] then None
    else if Matches(rule, voices[0]) then Some(0)
    else
      match FindFirst(voices[1..], rule)
      case None => None
      case Some(k) => Some(k + 1)
  }

  function Find(voices: seq<Voice>, rule: VoiceRule): Option<Voice> {
    match FindFirst(voices, rule)
    case None => None
    case Some(k) => if k < |voices| then Some(voices[k]) else None
  }

  /** The voice `playTTS` picks: the four searches tried in order. */
  function PreferredVoice(voices: seq<Voice>): Option<Voice> {
    var google := Find(voices, GoogleUsEnglish);
    if google.Some? then google
    else
      var samantha := Find(voices, Samantha);
      if samantha.Some? then samantha
      else
        var local := Find(voices, LocalUsEnglish);
        if local.Some? then local else Find(voices, AnyEnglish)
  }

  /** The rank of a voice: the first search that would accept it, 4 if none would. */
  function Rank(v: Voice): nat {
    if Matches(GoogleUsEnglish, v) then 0
    else if Matches(Samantha, v) then 1
    else if Matches(LocalUsEnglish, v) then 2
    else if Matches(AnyEnglish, v) then 3
    else 4
  }

  /**
   * The chosen voice is the first voice of best rank; no voice is chosen
   * exactly when no voice is named 'Google US English' or 'Samantha' and
   * none speaks a language starting with 'en'.
   */
  lemma PreferredVoiceIsFirstBestRanked(voices: seq<Voice>)
    ensures PreferredVoice(voices).None? <==> forall j :: 0 <= j < |voices| ==> Rank(voices[j]) == 4
    ensures PreferredVoice(voices).Some? ==>
      exists i :: 0 <= i < |voices| && voices[i] == PreferredVoice(voices).value
        && Rank(voices[i]) < 4
        && (forall j :: 0 <= j < |voices| ==> Rank(voices[i]) <= Rank(voices[j]))
        && (forall j :: 0 <= j < i ==> Rank(voices[i]) < Rank(voices[j]))
  {
    var g, s, l, e := FindFirst(voices, GoogleUsEnglish), FindFirst(voices, Samantha),
                      FindFirst(voices, LocalUsEnglish), FindFirst(voices, AnyEnglish);
    if g.Some? {
      assert Rank(voices[g.value]) == 0;
    } else if s.Some? {
      assert Rank(voices[s.value]) == 1;
    } else if l.Some? {
      assert Rank(voices[l.value]) == 2;
    } else if e.Some? {
      assert Rank(voices[e.value]) == 3;
    }
  }

  // ---------------------------------------------------------------------
  // PCM decoding
  // ---------------------------------------------------------------------

  /** The byte a `Uint8Array` stores for a character code (modulo 256). */
  function ByteOf(c: char): byte {
    ((c as int) % 256) as byte
  }

  function BytesOf(binary: string): (r: seq<byte>)
    ensures |r| == |binary|
    ensures forall i :: 0 <= i < |binary| ==> r[i] == ByteOf(binary[i])
  {
    seq(|binary|, i requires 0 <= i < |binary| => ByteOf(binary[i]))
  }

  predicate IsInt16(s: int) { -32768 <= s < 32768 }

  /** `DataView.getInt16(offset, true)`: the signed 16-bit value of a low and a high byte. */
  function Int16LE(lo: byte, hi: byte): (s: int)
    ensures IsInt16(s)
  {
    var u := lo as int + 256 * hi as int;
    if u >= 32768 then u - 65536 else u
  }

  /** The two's-complement little-endian bytes of a 16-bit sample. */
  function EncodeInt16LE(s: int): (bytes: (byte, byte))
    requires IsInt16(s)
  {
    var u := if s < 0 then s + 65536 else s;
    ((u % 256) as byte, (u / 256) as byte)
  }

  /** Decoding the bytes of a sample gives the sample back. */
  lemma Int16RoundTrip(s: int)
    requires IsInt16(s)
    ensures Int16LE(EncodeInt16LE(s).0, EncodeInt16LE(s).1) == s
  {
  }

  /** Encoding a decoded sample gives the two bytes back. */
  lemma Int16BytesRoundTrip(lo: byte, hi: byte)
    ensures EncodeInt16LE(Int16LE(lo, hi)) == (lo, hi)
  {
  }

  /** Sample `i` is the signed little-endian value of bytes `2i` and `2i+1`. */
  function Samples(bytes: seq<byte>): (r: seq<int>)
    requires |bytes| % 2 == 0
    ensures |r| == |bytes| / 2
    ensures forall i :: 0 <= i < |r| ==> r[i] == Int16LE(bytes[2 * i], bytes[2 * i + 1])
  {
    seq(|bytes| / 2, i requires 0 <= i < |bytes| / 2 => Int16LE(bytes[2 * i], bytes[2 * i + 1]))
  }

  function EncodeSamples(samples: seq<int>): (r: seq<byte>)
    requires forall i :: 0 <= i < |samples| ==> IsInt16(samples[i])
    ensures |r| == 2 * |samples|
  {
    if samples == [] then []
    else
      var b := EncodeInt16LE(samples[0]);
      [b.0, b.1] + EncodeSamples(samples[1..])
  }

  lemma {:induction false} EncodeSamplesAt(samples: seq<int>, i: nat)
    requires forall k :: 0 <= k < |samples| ==> IsInt16(samples[k])
    requires i < |samples|
    ensures EncodeSamples(samples)[2 * i] == EncodeInt16LE(samples[i]).0
    ensures EncodeSamples(samples)[2 * i + 1] == EncodeInt16LE(samples[i]).1
  {
    if i > 0 {
      EncodeSamplesAt(samples[1..], i - 1);
    }
  }

  /** Decoding encoded samples gives the samples back. */
  lemma {:induction false} SamplesRoundTrip(samples: seq<int>)
    requires forall i :: 0 <= i < |samples| ==> IsInt16(samples[i])
    ensures Samples(EncodeSamples(samples)) == samples
  {
    var e := EncodeSamples(samples);
    var r := Samples(e);
    assert |r| == |samples|;
    forall i | 0 <= i < |samples| ensures r[i] == samples[i] {
      assert r[i] == Int16LE(e[2 * i], e[2 * i + 1]);
      EncodeSamplesAt(samples, i);
      Int16RoundTrip(samples[i]);
    }
  }

  /** Encoding the samples of an even-length byte string gives the bytes back. */
  lemma {:induction false} BytesRoundTrip(bytes: seq<byte>)
    requires |bytes| % 2 == 0
    ensures EncodeSamples(Samples(bytes)) == bytes
  {
    var ss := Samples(bytes);
    var r := EncodeSamples(ss);
    forall k | 0 <= k < |bytes| ensures r[k] == bytes[k] {
      var i := k / 2;
      EncodeSamplesAt(ss, i);
      Int16BytesRoundTrip(bytes[2 * i], bytes[2 * i + 1]);
    }
  }

  /**
   * The two decoding loops of `playGeminiAudio`: copy the character codes into
   * a byte array, then read 16-bit samples while `i < len / 2` (a real
   * division). With an odd length the last round reads past the end and
   * `getInt16` throws a RangeError: `ok` is false.
   */
  method DecodePcm16(binary: string) returns (ok: bool, samples: seq<int>)
    ensures ok <==> |binary| % 2 == 0
    ensures ok ==> samples == Samples(BytesOf(binary))
  {
    var len := |binary|;
    var bytes := new byte[len];
    for i := 0 to len
      invariant forall j :: 0 <= j < i ==> bytes[j] == ByteOf(binary[j])
    {
      bytes[i] := ByteOf(binary[i]);
    }
    var out := new int[len / 2];
    var i := 0;
    while 2 * i < len
      invariant 0 <= i && 2 * i <= len
      invariant forall j :: 0 <= j < len ==> bytes[j] == ByteOf(binary[j])
      invariant forall j :: 0 <= j < i ==> out[j] == Int16LE(bytes[2 * j], bytes[2 * j + 1])
    {
      if 2 * i + 1 >= len {
        return false, [];
      }
      out[i] := Int16LE(bytes[2 * i], bytes[2 * i + 1]);
      i := i + 1;
    }
    assert bytes[..] == BytesOf(binary);
    return true, out[..];
  }

  // ---------------------------------------------------------------------
  // Browser objects
  // ---------------------------------------------------------------------

  /** A buffer source node: the samples it plays and whether it is playing. */
  class AudioSource {
    const samples: seq<int>
    var playing: bool

    constructor (samples: seq<int>)
      ensures this.samples == samples && !playing
    {
      this.samples := samples;
      playing := false;
    }
  }

  /** An audio context; a context created outside a user gesture starts suspended. */
  class AudioContext {
    var running: bool

    constructor ()
      ensures !running
    {
      running := false;
    }
  }

  /** The browser's speech synthesizer: its voice list and the utterances queued to speak. */
  class Synthesis {
    var voices: seq<Voice>
    var queue: seq<Utterance>

    constructor (voices: seq<Voice>)
      ensures this.voices == voices && queue == []
    {
      this.voices := voices;
      queue := [];
    }
  }

  datatype PlaybackError = RangeError | ZeroLengthBuffer

  datatype Playback = Playing(source: AudioSource) | Failed(error: PlaybackError)

  const SpeechRate: real := 0.9
  const SpeechPitch: real := 1.05

  // ---------------------------------------------------------------------
  // The manager
  // ---------------------------------------------------------------------

  class AudioManager {
    var audioCtx: AudioContext?
    var currentSource: AudioSource?
    const synthesis: Synthesis?
    var voices: seq<Voice>
    /** Whether the browser offers the voices-changed event the constructor subscribes to. */
    const listensForVoiceChanges: bool
    /** Every source this manager has started. */
    ghost var sources: set<AudioSource>

    ghost function Footprint(): set<object>
      reads this
    {
      {this as object} + (set s | s in sources :: s as object)
        + (if audioCtx != null then {audioCtx as object} else {})
        + (if synthesis != null then {synthesis as object} else {})
    }

    /**
     * The slot invariant: only the source in the slot may be playing, and the
     * synthesizer speaks at most one utterance, and only while the slot is empty.
     */
    ghost predicate Valid()
      reads this, Footprint()
    {
      && (currentSource != null ==> currentSource in sources)
      && (forall s :: s in sources && s.playing ==> s == currentSource)
      && (synthesis != null ==> |synthesis.queue| <= 1 && (synthesis.queue != [] ==> currentSource == null))
    }

    /** The number of audio streams playing: sources plus queued utterances. */
    ghost function ActiveStreams(): nat
      reads this, Footprint()
    {
      |set s | s in sources && s.playing| + (if synthesis != null then |synthesis.queue| else 0)
    }

    /**
     * In every state that keeps the slot invariant at most one stream plays.
     * Every step of the manager keeps it except `PlayGeminiAudioFinishAsWritten`
     * after something started during the await (see `OverlapCounterexample`).
     */
    lemma ExclusivePlayback()
      requires Valid()
      ensures ActiveStreams() <= 1
      ensures synthesis != null && synthesis.queue != [] ==> ActiveStreams() == 1
    {
      var playing := set s | s in sources && s.playing;
      if currentSource != null && currentSource in playing {
        assert playing == {currentSource};
      } else {
        assert playing == {};
      }
    }

    /** The private constructor: remember the synthesizer and read its voices once. */
    constructor (synthesis: Synthesis?, listensForVoiceChanges: bool)
      requires synthesis != null ==> synthesis.queue == []
      ensures Valid()
      ensures this.synthesis == synthesis && this.listensForVoiceChanges == listensForVoiceChanges
      ensures audioCtx == null && currentSource == null && sources == {}
      ensures voices == if synthesis != null then synthesis.voices else []
    {
      this.synthesis := synthesis;
      this.listensForVoiceChanges := listensForVoiceChanges;
      audioCtx := null;
      currentSource := null;
      sources := {};
      voices := if synthesis != null then synthesis.voices else [];
    }

    /** The voices-changed event: re-read the voice list if the constructor subscribed. */
    method OnVoicesChanged()
      modifies this`voices
      ensures voices == if synthesis != null && listensForVoiceChanges then synthesis.voices else old(voices)
    {
      if synthesis != null && listensForVoiceChanges {
        voices := synthesis.voices;
      }
    }

    /** The audio context is created on first use and reused afterwards. */
    method GetAudioContext() returns (ctx: AudioContext)
      requires Valid()
      modifies this`audioCtx
      ensures Valid()
      ensures audioCtx == ctx
      ensures old(audioCtx) != null ==> ctx == old(audioCtx)
      ensures old(audioCtx) == null ==> fresh(ctx) && !ctx.running
    {
      if audioCtx == null {
        audioCtx := new AudioContext();
      }
      ctx := audioCtx;
    }

    /** Stop the source in the slot, empty the slot and cancel all speech. */
    method StopAll()
      requires Valid()
      modifies this`currentSource, sources, synthesis
      ensures Valid()
      ensures currentSource == null
      ensures synthesis != null ==> synthesis.queue == [] && synthesis.voices == old(synthesis.voices)
      ensures old(currentSource) != null ==> !old(currentSource).playing
      ensures forall s :: s in sources ==> !s.playing
    {
      if currentSource != null {
        currentSource.playing := false;
        currentSource := null;
      }
      if synthesis != null {
        synthesis.queue := [];
      }
    }

    /**
     * `playGeminiAudio` up to its `await`: stop everything and get the
     * context. `mustAwait` says the context is suspended, so the call waits
     * for `resume()` and other handlers run before `PlayGeminiAudioFinish`.
     */
    method PlayGeminiAudioBegin() returns (mustAwait: bool)
      requires Valid()
      modifies this`currentSource, this`audioCtx, sources, synthesis
      ensures Valid()
      ensures currentSource == null && forall s :: s in sources ==> !s.playing
      ensures synthesis != null ==> synthesis.queue == [] && synthesis.voices == old(synthesis.voices)
      ensures audioCtx != null && (old(audioCtx) != null ==> audioCtx == old(audioCtx))
      ensures old(audioCtx) == null ==> fresh(audioCtx) && !audioCtx.running
      ensures old(audioCtx) != null ==> audioCtx.running == old(audioCtx.running)
      ensures mustAwait <==> !audioCtx.running
    {
      StopAll();
      var ctx := GetAudioContext();
      mustAwait := !ctx.running;
    }

    /** The context's `resume()` settles: the context runs from now on. */
    method ResumeContext()
      requires Valid() && audioCtx != null
      modifies audioCtx
      ensures Valid() && audioCtx.running
    {
      audioCtx.running := true;
    }

    /**
     * `playGeminiAudio` after its `await`, as the source has it: decode the
     * samples, then claim the slot and start a fresh source, without stopping
     * what began during the await. An odd byte count fails with a RangeError
     * and an empty one with the buffer's zero-length error.
     */
    method PlayGeminiAudioFinishAsWritten(binary: string) returns (r: Playback)
      requires Valid() && audioCtx != null
      modifies this`currentSource, this`sources
      ensures r.Playing? <==> |binary| > 0 && |binary| % 2 == 0
      ensures |binary| % 2 == 1 ==> r == Failed(RangeError)
      ensures |binary| == 0 ==> r == Failed(ZeroLengthBuffer)
      ensures r.Failed? ==> currentSource == old(currentSource) && sources == old(sources)
      ensures r.Playing? ==>
        && fresh(r.source) && currentSource == r.source && r.source.playing
        && r.source.samples == Samples(BytesOf(binary))
        && sources == old(sources) + {r.source}
      ensures old(currentSource) == null && (synthesis != null ==> synthesis.queue == []) ==> Valid()
    {
      var ok, samples := DecodePcm16(binary);
      if !ok {
        return Failed(RangeError);
      }
      if |samples| == 0 {
        return Failed(ZeroLengthBuffer);
      }
      var source := new AudioSource(samples);
      sources := sources + {source};
      currentSource := source;
      source.playing := true;
      r := Playing(source);
    }

    /**
     * `playGeminiAudio` after its `await`, corrected: stop whatever began
     * during the await before claiming the slot, so playback stays exclusive.
     */
    method PlayGeminiAudioFinish(binary: string) returns (r: Playback)
      requires Valid() && audioCtx != null
      modifies this`currentSource, this`sources, sources, synthesis
      ensures Valid()
      ensures forall s :: s in old(sources) ==> !s.playing
      ensures synthesis != null ==> synthesis.queue == [] && synthesis.voices == old(synthesis.voices)
      ensures r.Playing? <==> |binary| > 0 && |binary| % 2 == 0
      ensures |binary| % 2 == 1 ==> r == Failed(RangeError)
      ensures |binary| == 0 ==> r == Failed(ZeroLengthBuffer)
      ensures r.Failed? ==> currentSource == null && sources == old(sources)
      ensures r.Playing? ==>
        && fresh(r.source) && currentSource == r.source && r.source.playing
        && r.source.samples == Samples(BytesOf(binary))
        && sources == old(sources) + {r.source}
    {
      StopAll();
      r := PlayGeminiAudioFinishAsWritten(binary);
    }

    /**
     * Play decoded speech audio when nothing else runs during the await:
     * stop everything, make sure the context runs, decode the samples and
     * start a fresh source that claims the slot. Failures leave the slot empty.
     */
    method PlayGeminiAudio(binary: string) returns (r: Playback)
      requires Valid()
      modifies this`currentSource, this`audioCtx, this`sources, sources, synthesis, audioCtx
      ensures Valid()
      ensures old(currentSource) != null ==> !old(currentSource).playing
      ensures synthesis != null ==> synthesis.queue == [] && synthesis.voices == old(synthesis.voices)
      ensures audioCtx != null && audioCtx.running
      ensures old(audioCtx) != null ==> audioCtx == old(audioCtx)
      ensures r.Playing? <==> |binary| > 0 && |binary| % 2 == 0
      ensures |binary| % 2 == 1 ==> r == Failed(RangeError)
      ensures |binary| == 0 ==> r == Failed(ZeroLengthBuffer)
      ensures r.Failed? ==> currentSource == null && sources == old(sources)
      ensures r.Playing? ==>
        && fresh(r.source) && currentSource == r.source && r.source.playing
        && r.source.samples == Samples(BytesOf(binary))
        && sources == old(sources) + {r.source}
    {
      var mustAwait := PlayGeminiAudioBegin();
      if mustAwait {
        ResumeContext();
      }
      r := PlayGeminiAudioFinish(binary);
    }

    /** A source's end event: it stops, and it releases the slot only if it still owns it. */
    method OnEnded(source: AudioSource)
      requires Valid() && source in sources
      modifies this`currentSource, source
      ensures Valid()
      ensures !source.playing
      ensures currentSource == if old(currentSource) == source then null else old(currentSource)
    {
      source.playing := false;
      if currentSource == source {
        currentSource := null;
      }
    }

    /**
     * Speak `text` with the synthesizer: stop everything first; without a
     * synthesizer nothing more happens. The voice list is re-read when empty.
     */
    method PlayTTS(text: string)
      requires Valid()
      modifies this`currentSource, this`voices, sources, synthesis
      ensures Valid()
      ensures currentSource == null
      ensures old(currentSource) != null ==> !old(currentSource).playing
      ensures synthesis == null ==> voices == old(voices)
      ensures synthesis != null ==>
        && synthesis.voices == old(synthesis.voices)
        && voices == (if old(voices) == [] then synthesis.voices else old(voices))
        && synthesis.queue == [Utterance(text, SpeechRate, SpeechPitch, "en-US", PreferredVoice(voices))]
    {
      StopAll();
      if synthesis == null {
        return;
      }
      if |voices| == 0 {
        voices := synthesis.voices;
      }
      var utterance := Utterance(text, SpeechRate, SpeechPitch, "en-US", PreferredVoice(voices));
      synthesis.queue := synthesis.queue + [utterance];
    }
  }

  /**
   * The first speech audio of a session plays on a suspended context. While
   * `playGeminiAudio` awaits `resume()`, a card flip speaks its word; when
   * the await ends the new source starts without stopping that utterance,
   * so two streams play at once.
   */
  method OverlapCounterexample(word: string) returns (awaited: bool, sourcePlaying: bool, utterancesQueued: nat)
    ensures awaited && sourcePlaying && utterancesQueued == 1
  {
    var synthesis := new Synthesis([]);
    var manager := new AudioManager(synthesis, true);
    awaited := manager.PlayGeminiAudioBegin();
    manager.PlayTTS(word);
    manager.ResumeContext();
    var r := manager.PlayGeminiAudioFinishAsWritten("ab");
    sourcePlaying := r.Playing? && r.source.playing;
    utterancesQueued := |synthesis.queue|;
  }

  /** The static `instance` slot of the manager's class. */
  class AudioRegistry {
    var instance: AudioManager?

    constructor ()
      ensures instance == null
    {
      instance := null;
    }

    /** `getInstance`: create the manager on first call, return the same one ever after. */
    method GetInstance(synthesis: Synthesis?, listensForVoiceChanges: bool) returns (m: AudioManager)
      requires instance == null && synthesis != null ==> synthesis.queue == []
      modifies this
      ensures instance == m
      ensures old(instance) != null ==> m == old(instance)
      ensures old(instance) == null ==> fresh(m) && m.Valid() && m.synthesis == synthesis && m.currentSource == null
    {
      if instance == null {
        instance := new AudioManager(synthesis, listensForVoiceChanges);
      }
      m := instance;
    }
  }
}
