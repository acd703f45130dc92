/** What `stop_recording` decides once capture has ended: the checks run in a
    fixed order and the first that applies settles the outcome. */
module Pipeline {
  import opened Pcm
  import opened Segments

  /** What the speech engine's `transcribe` gives back for a waveform. */
  datatype EngineReply = Texts(texts: seq<string>) | Raised

  /** One outcome per branch of `stop_recording`. */
  datatype Outcome =
    | Ignored                 // not recording: the call does nothing
    | Discarded               // the capture loop faulted: frames cleared
    | NoAudio                 // no chunk was captured
    | BadBuffer               // an odd number of bytes: numpy refuses the buffer
    | TooQuietToTranscribe    // mean amplitude below 0.001
    | EngineFailed            // the engine raised
    | NoSpeech                // the engine's text is empty
    | Typed(text: string)     // the text is handed to `type_text`

  /** The outcomes reached only after the engine was called. */
  predicate EngineCalled(o: Outcome)
  {
    o.EngineFailed? || o.NoSpeech? || o.Typed?
  }

  /** The samples `astype(np.float32) / 32768.0` would hand to the engine,
      if the bytes form whole samples. */
  function Waveform(frames: seq<Chunk>): Option<seq<int>>
  {
    DecodePcm(Concat(frames))
  }

  /** The audio is transcribed: it was captured without fault, is not empty,
      decodes, and is loud enough. */
  predicate PassesChecks(error: bool, frames: seq<Chunk>)
  {
    !error && frames != [] && Waveform(frames).Some? && !TooQuiet(Waveform(frames).value)
  }

  /** The checks after a stop, in order: error, then empty, then decoding,
      then volume; only audio that passes all of them reaches the engine, and
      only a non-empty joined text is typed. */
  function Process(error: bool, frames: seq<Chunk>, engine: seq<real> -> EngineReply): (o: Outcome)
    ensures o == Discarded <==> error
    ensures o == NoAudio <==> !error && frames == []
    ensures o == BadBuffer <==> !error && frames != [] && Waveform(frames).None?
    ensures o == TooQuietToTranscribe <==>
      !error && frames != [] && Waveform(frames).Some? && TooQuiet(Waveform(frames).value)
    ensures EngineCalled(o) <==> PassesChecks(error, frames)
    ensures PassesChecks(error, frames) ==>
      match engine(Normalise(Waveform(frames).value))
      case Raised => o == EngineFailed
      case Texts(texts) =>
        if SegmentText(texts) == [] then o == NoSpeech else o == Typed(SegmentText(texts))
    ensures o.Typed? ==> o.text != []
    ensures o != Ignored
  {
    if error then Discarded
    else if frames == [] then NoAudio
    else match Waveform(frames)
      case None => BadBuffer
      case Some(xs) =>
        if TooQuiet(xs) then TooQuietToTranscribe
        else match engine(Normalise(xs))
          case Raised => EngineFailed
          case Texts(texts) =>
            var text := SegmentText(texts);
            if text != [] then Typed(text) else NoSpeech
  }

  /** Whole-sample chunks always decode, so for them only error, emptiness
      and volume stand between a stop and the engine. */
  lemma {:induction false} WholeSamplesDecode(frames: seq<Chunk>)
    requires forall i :: 0 <= i < |frames| ==> |frames[i]| % 2 == 0
    ensures TotalBytes(frames) % 2 == 0
    ensures Waveform(frames).Some?
  {
    if frames != [] {
      WholeSamplesDecode(frames[..|frames| - 1]);
    }
  }

  /** A buffer of full device chunks (1024 samples, 2048 bytes each) that is
      quiet is never transcribed; one that is loud always is. */
  lemma FullChunksReachEngine(frames: seq<Chunk>, engine: seq<real> -> EngineReply)
    requires frames != []
    requires forall i :: 0 <= i < |frames| ==> |frames[i]| == 2 * ChunkSamples
    ensures var xs := Waveform(frames);
      xs.Some? && (EngineCalled(Process(false, frames, engine)) <==> !TooQuiet(xs.value))
  {
    WholeSamplesDecode(frames);
  }

  /** One chunk holding the sample 16384, half of full scale. */
  const LoudChunk: Chunk := [0, 64]

  /** `LoudChunk` is loud enough to transcribe. */
  lemma LoudChunkPasses()
    ensures Waveform([LoudChunk]) == Some([16384])
    ensures PassesChecks(false, [LoudChunk])
  {
    assert Concat([LoudChunk]) == LoudChunk by { assert [LoudChunk][..0] == []; }
    assert Samples(LoudChunk) == [16384] by { assert LoudChunk[2..] == []; }
  }

  /** Scenario: a loud buffer and the segments `"hello "` and `" world"`
      type `"hello world"`. */
  lemma HelloWorldTyped(frames: seq<Chunk>, engine: seq<real> -> EngineReply)
    requires PassesChecks(false, frames)
    requires engine(Normalise(Waveform(frames).value)) == Texts(["hello ", " world"])
    ensures Process(false, frames, engine) == Typed("hello world")
  {
    HelloWorld();
  }

  /** Scenario: the engine finds no segment, so nothing is typed. */
  lemma NoSegmentsNoSpeech(frames: seq<Chunk>, engine: seq<real> -> EngineReply)
    requires PassesChecks(false, frames)
    requires engine(Normalise(Waveform(frames).value)) == Texts([])
    ensures Process(false, frames, engine) == NoSpeech
  {
  }
}
