/** The `DictationTranscriber` object: the session flags and frame buffer that
    the hotkey handler and the capture loop update in place.

    The two threads of the program are serialised. `StartRecording` runs the
    hotkey handler's start path up to the point where the capture thread is
    spawned; `Record` then runs that thread's loop over the outcomes it
    observes; `StopRecording` is the handler's stop path. A `Stop` event in
    `Record`'s input is the moment the handler clears `is_recording`, after
    which it goes on with `FinishStop`. */
module Transcriber {
  import opened Pcm
  import opened Segments
  import opened Capture
  import opened Pipeline

  /** A key reported by the keyboard listener. */
  datatype Key = F9 | OtherKey(code: nat)

  /** `HOTKEY`. */
  const Hotkey: Key := F9

  class DictationTranscriber {
    var isRecording: bool
    var audioFrames: seq<Chunk>
    var recordingError: bool
    /** Every string handed to `type_text`, oldest first. */
    var typed: seq<string>

    /** The three session fields together. */
    function State(): Session
      reads this
    {
      Session(isRecording, audioFrames, recordingError)
    }

    /** A session that is recording has not faulted: the loop sets the error
        flag only together with clearing the recording flag, and a start
        clears the error flag. */
    ghost predicate Valid()
      reads this
    {
      isRecording ==> !recordingError
    }

    /** `__init__`, without loading the model. */
    constructor ()
      ensures State() == Session(false, [], false) && typed == []
      ensures Valid()
    {
      isRecording := false;
      audioFrames := [];
      recordingError := false;
      typed := [];
    }

    /** `start_recording`: ignored while recording; otherwise a fresh session.
        `initOk` says whether creating the PyAudio instance succeeds; it runs
        before the `try` block, so its failure raises out of the method with
        `is_recording` already set. `setupOk` says whether the `try` block
        succeeds (opening the stream, playing the two cues and starting the
        capture thread); its failure rolls `is_recording` back. `warmup(i)` is
        the outcome of the i-th warm-up read. `raised` says that the method
        ended with an exception. */
    method StartRecording(initOk: bool, setupOk: bool, warmup: nat -> DeviceRead) returns (raised: bool)
      modifies this`isRecording, this`audioFrames, this`recordingError
      ensures old(isRecording) ==> State() == old(State()) && !raised
      ensures !old(isRecording) && !initOk ==> State() == Session(true, [], false)
      ensures !old(isRecording) && initOk ==> State() == Session(setupOk, [], false)
      ensures raised <==> !old(isRecording) && !initOk
      ensures old(Valid()) ==> Valid()
    {
      if isRecording {
        return false;
      }
      isRecording := true;
      audioFrames := [];
      recordingError := false;
      if !initOk {
        return true;
      }
      if !setupOk {
        isRecording := false;
        return false;
      }
      var discarded := WarmUp(warmup);
      raised := false;
    }

    /** The warm-up loop of `start_recording`: `WarmupChunks()` reads, one
        after another, whose data is dropped and whose exceptions are
        swallowed; no field changes. `observed` lists the read outcomes in order. */
    method WarmUp(warmup: nat -> DeviceRead) returns (observed: seq<DeviceRead>)
      ensures |observed| == WarmupChunks() == 15
      ensures forall i :: 0 <= i < |observed| ==> observed[i] == warmup(i)
    {
      observed := [];
      while |observed| < WarmupChunks()
        invariant |observed| <= WarmupChunks()
        invariant forall i :: 0 <= i < |observed| ==> observed[i] == warmup(i)
      {
        observed := observed + [warmup(|observed|)];
      }
    }

    /** `_record`: runs while recording, over the events it observes. */
    method Record(events: seq<CaptureEvent>)
      modifies this`isRecording, this`audioFrames, this`recordingError
      ensures State() == Run(old(State()), 0, events)
      ensures old(Valid()) ==> Valid()
    {
      var consecutive: nat := 0;
      var i := 0;
      while isRecording && i < |events|
        invariant i <= |events|
        invariant Run(State(), consecutive, events[i..]) == Run(old(State()), 0, events)
        decreases |events| - i
      {
        assert events[i..][1..] == events[i + 1..];
        match events[i] {
          case Stop =>
            isRecording := false;
          case Read(Data(c)) =>
            audioFrames := audioFrames + [c];
            consecutive := 0;
          case Read(OSFault) =>
            consecutive := consecutive + 1;
            if consecutive >= MaxConsecutiveErrors {
              recordingError := true;
              isRecording := false;
            }
          case Read(OtherFault) =>
            recordingError := true;
            isRecording := false;
        }
        i := i + 1;
      }
      if old(Valid()) {
        RunKeepsHealthy(old(State()), 0, events);
      }
    }

    /** `stop_recording`: ignored unless recording; otherwise recording ends
        and the captured audio goes through `FinishStop`. */
    method StopRecording(engine: seq<real> -> EngineReply) returns (outcome: Outcome)
      modifies this
      ensures !isRecording
      ensures !old(isRecording) ==> outcome == Ignored && State() == old(State()) && typed == old(typed)
      ensures old(isRecording) ==> outcome == Process(old(recordingError), old(audioFrames), engine)
      ensures recordingError == old(recordingError)
      ensures audioFrames == if old(isRecording) && old(recordingError) then [] else old(audioFrames)
      ensures typed == old(typed) + if outcome.Typed? then [outcome.text] else []
      ensures Valid()
      ensures old(Valid()) && old(isRecording) ==> outcome != Discarded
    {
      if !isRecording {
        return Ignored;
      }
      isRecording := false;
      outcome := FinishStop(engine);
    }

    /** The part of `stop_recording` after the capture thread has finished:
        discard on error, refuse an empty buffer, decode, test the volume,
        transcribe and type the text. */
    method FinishStop(engine: seq<real> -> EngineReply) returns (outcome: Outcome)
      modifies this`audioFrames, this`typed
      ensures outcome == Process(recordingError, old(audioFrames), engine)
      ensures audioFrames == if recordingError then [] else old(audioFrames)
      ensures typed == old(typed) + if outcome.Typed? then [outcome.text] else []
    {
      if recordingError {
        audioFrames := [];
        return Discarded;
      }
      if audioFrames == [] {
        return NoAudio;
      }
      var data := Concat(audioFrames);
      match DecodePcm(data)
      case None =>
        outcome := BadBuffer;
      case Some(samples) =>
        var audio := Normalise(samples);
        if TooQuiet(samples) {
          outcome := TooQuietToTranscribe;
        } else {
          match engine(audio)
          case Raised =>
            outcome := EngineFailed;
          case Texts(texts) =>
            var text := SegmentText(texts);
            if text != [] {
              TypeText(text);
              outcome := Typed(text);
            } else {
              outcome := NoSpeech;
            }
        }
    }

    /** `type_text`: the string reaches the keyboard controller. */
    method TypeText(text: string)
      modifies this`typed
      ensures typed == old(typed) + [text]
    {
      typed := typed + [text];
    }

    /** `on_hotkey`: the hotkey toggles between starting and stopping; any
        other key does nothing. */
    method OnHotkey(key: Key, initOk: bool, setupOk: bool, warmup: nat -> DeviceRead,
                    engine: seq<real> -> EngineReply)
      modifies this
      ensures key != Hotkey ==> State() == old(State()) && typed == old(typed)
      ensures key == Hotkey && !old(isRecording) ==>
        State() == Session(!initOk || setupOk, [], false) && typed == old(typed)
      ensures key == Hotkey && old(isRecording) ==>
        var o := Process(old(recordingError), old(audioFrames), engine);
        && State() == Session(false, if old(recordingError) then [] else old(audioFrames), old(recordingError))
        && typed == old(typed) + (if o.Typed? then [o.text] else [])
      ensures old(Valid()) ==> Valid()
    {
      if key == Hotkey {
        if !isRecording {
          // An exception from the start path is caught and printed here.
          var raised := StartRecording(initOk, setupOk, warmup);
        } else {
          var outcome := StopRecording(engine);
        }
      }
    }
  }

  /** One dictation from an idle transcriber: the hotkey press starts a
      session, the capture loop keeps a loud chunk across one `OSError`, and the
      second press stops it; an engine that hears `"hello "` and `" world"`
      makes it type `"hello world"`. */
  method DictateHelloWorld(t: DictationTranscriber, engine: seq<real> -> EngineReply)
    requires !t.isRecording
    requires forall w :: engine(w) == Texts(["hello ", " world"])
    modifies t
    ensures t.typed == old(t.typed) + ["hello world"]
    ensures t.State() == Session(false, [LoudChunk], false)
  {
    var warmup := (i: nat) => OSFault;
    LoudChunkPasses();
    HelloWorldTyped([LoudChunk], engine);
    t.OnHotkey(F9, true, true, warmup, engine);
    ReadThenHiccup(t.State(), LoudChunk);
    t.Record([Read(Data(LoudChunk)), Read(OSFault)]);
    t.OnHotkey(F9, true, true, warmup, engine);
  }

  /** Two dictations in a row each type `"hello world"`: nothing of the first
      session's buffer or error state reaches the second. */
  method DictateTwice() returns (typed: seq<string>)
    ensures typed == ["hello world", "hello world"]
  {
    var t := new DictationTranscriber();
    var engine := (w: seq<real>) => Texts(["hello ", " world"]);
    DictateHelloWorld(t, engine);
    DictateHelloWorld(t, engine);
    typed := t.typed;
  }

  /** A stop observed by the capture loop, then the rest of the stop path:
      the chunk read before the stop is transcribed and typed. */
  method StopSeenByLoop() returns (outcome: Outcome, typed: seq<string>)
    ensures outcome == Typed("hello world") && typed == ["hello world"]
  {
    var t := new DictationTranscriber();
    var engine := (w: seq<real>) => Texts(["hello ", " world"]);
    LoudChunkPasses();
    HelloWorldTyped([LoudChunk], engine);
    var raised := t.StartRecording(true, true, (i: nat) => Data([]));
    assert t.State() == Session(true, [], false) && t.typed == [];
    HiccupReadStop(t.State(), LoudChunk);
    t.Record([Read(OSFault), Read(Data(LoudChunk)), Stop]);
    assert t.recordingError == false && t.audioFrames == [LoudChunk];
    outcome := t.FinishStop(engine);
    assert outcome == Typed("hello world");
    typed := t.typed;
  }

  /** Creating the PyAudio instance fails: the exception leaves the
      transcriber recording with no capture thread, so the next hotkey press
      stops a session that captured nothing. */
  method InitFailureThenStop() returns (raised: bool, outcome: Outcome)
    ensures raised && outcome == NoAudio
  {
    var t := new DictationTranscriber();
    var engine := (w: seq<real>) => Texts(["hello ", " world"]);
    raised := t.StartRecording(false, true, (i: nat) => OSFault);
    outcome := t.StopRecording(engine);
  }
}
