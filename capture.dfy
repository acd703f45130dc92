/** The capture loop `_record`, as a function of the outcomes it observes.
    The loop runs while the session is recording; each turn either takes one
    device read or observes that the hotkey thread has cleared the
    recording flag. */
module Capture {
  import opened Pcm

  /** What one `stream.read(CHUNK)` does. */
  datatype DeviceRead =
    | Data(chunk: Chunk)   // returned a chunk
    | OSFault              // raised OSError
    | OtherFault           // raised any other exception

  /** One turn of the loop: a read, or the other thread's stop. */
  datatype CaptureEvent = Read(read: DeviceRead) | Stop

  /** The fields of the transcriber the loop reads and writes:
      `is_recording`, `audio_frames`, `recording_error`. */
  datatype Session = Session(recording: bool, frames: seq<Chunk>, error: bool)

  /** `max_consecutive_errors`. */
  const MaxConsecutiveErrors: nat := 5

  /** An `OSError` that does not end the loop leaves the counter below the
      limit; one that brings it to the limit faults the session. */
  function Run(s: Session, consecutive: nat, evs: seq<CaptureEvent>): Session
    decreases |evs|
  {
    if !s.recording || evs == [] then s
    else match evs[0]
      case Stop => s.(recording := false)
      case Read(Data(c)) => Run(s.(frames := s.frames + [c]), 0, evs[1..])
      case Read(OSFault) =>
        if consecutive + 1 >= MaxConsecutiveErrors then s.(error := true, recording := false)
        else Run(s, consecutive + 1, evs[1..])
      case Read(OtherFault) => s.(error := true, recording := false)
  }

  // ---------------------------------------------------------------------
  // A reference description of the loop, by position in the event list.

  /** The chunk an event contributes: one for a successful read. */
  function ChunkOf(e: CaptureEvent): seq<Chunk>
  {
    match e
    case Read(Data(c)) => [c]
    case _ => []
  }

  /** The chunks of the successful reads, in order. */
  function OkChunks(evs: seq<CaptureEvent>): seq<Chunk>
  {
    if evs == [] then [] else OkChunks(evs[..|evs| - 1]) + ChunkOf(evs[|evs| - 1])
  }

  /** How many `OSError` reads end the list with no other event after them:
      the value of the consecutive-error counter after these events. */
  function TrailingOSFaults(evs: seq<CaptureEvent>): nat
  {
    if evs == [] || evs[|evs| - 1] != Read(OSFault) then 0
    else 1 + TrailingOSFaults(evs[..|evs| - 1])
  }

  /** The run of `OSError`s that ends at event k. */
  function OSFaultsEndingAt(evs: seq<CaptureEvent>, k: nat): nat
    requires k < |evs|
  {
    TrailingOSFaults(evs[..k + 1])
  }

  /** Event k faults the session: any non-`OSError` exception, or the
      fifth `OSError` in a row. */
  predicate FaultsAt(evs: seq<CaptureEvent>, k: nat)
    requires k < |evs|
  {
    evs[k] == Read(OtherFault)
    || (evs[k] == Read(OSFault) && OSFaultsEndingAt(evs, k) >= MaxConsecutiveErrors)
  }

  /** Event k ends the loop: a stop or a fault. */
  predicate EndsAt(evs: seq<CaptureEvent>, k: nat)
    requires k < |evs|
  {
    evs[k] == Stop || FaultsAt(evs, k)
  }

  /** The first event from position i on that ends the loop, or |evs|. */
  function FirstEnd(evs: seq<CaptureEvent>, i: nat): (k: nat)
    requires i <= |evs|
    ensures i <= k <= |evs|
    ensures forall j :: i <= j < k ==> !EndsAt(evs, j)
    ensures k < |evs| ==> EndsAt(evs, k)
    decreases |evs| - i
  {
    if i == |evs| || EndsAt(evs, i) then i else FirstEnd(evs, i + 1)
  }

  /** The session after the loop, read off the first ending event. */
  function Expected(s: Session, evs: seq<CaptureEvent>): Session
  {
    var k := FirstEnd(evs, 0);
    if k == |evs| then s.(frames := s.frames + OkChunks(evs))
    else Session(false, s.frames + OkChunks(evs[..k]), s.error || FaultsAt(evs, k))
  }

  lemma OkChunksStep(evs: seq<CaptureEvent>, i: nat)
    requires i < |evs|
    ensures OkChunks(evs[..i + 1]) == OkChunks(evs[..i]) + ChunkOf(evs[i])
    ensures TrailingOSFaults(evs[..i + 1]) ==
      if evs[i] == Read(OSFault) then TrailingOSFaults(evs[..i]) + 1 else 0
  {
    assert evs[..i + 1][..i] == evs[..i];
  }

  /** Induction on the remaining events: after i events none of which
      ended the loop, the frames hold their chunks and the counter holds the
      trailing run of `OSError`s. */
  lemma {:induction false} RunFrom(s: Session, evs: seq<CaptureEvent>, i: nat)
    requires s.recording
    requires i <= |evs|
    requires forall j :: 0 <= j < i ==> !EndsAt(evs, j)
    ensures Run(s.(frames := s.frames + OkChunks(evs[..i])), TrailingOSFaults(evs[..i]), evs[i..])
            == Expected(s, evs)
    decreases |evs| - i
  {
    var cur := s.(frames := s.frames + OkChunks(evs[..i]));
    var n := TrailingOSFaults(evs[..i]);
    assert FirstEnd(evs, 0) == FirstEnd(evs, i) by { FirstEndSkips(evs, 0, i); }
    if i == |evs| {
      assert evs[..i] == evs;
    } else {
      OkChunksStep(evs, i);
      var rest := evs[i..];
      assert rest[0] == evs[i] && rest[1..] == evs[i + 1..];
      match evs[i]
      case Stop =>
        assert EndsAt(evs, i);
      case Read(Data(c)) =>
        assert !EndsAt(evs, i);
        assert cur.frames + [c] == s.frames + OkChunks(evs[..i + 1]);
        RunFrom(s, evs, i + 1);
      case Read(OtherFault) =>
        assert EndsAt(evs, i) && FaultsAt(evs, i);
      case Read(OSFault) =>
        if n + 1 >= MaxConsecutiveErrors {
          assert EndsAt(evs, i) && FaultsAt(evs, i);
        } else {
          assert !EndsAt(evs, i);
          assert OkChunks(evs[..i + 1]) == OkChunks(evs[..i]) + [];
          assert OkChunks(evs[..i]) + [] == OkChunks(evs[..i]);
          RunFrom(s, evs, i + 1);
        }
    }
  }

  lemma {:induction false} FirstEndSkips(evs: seq<CaptureEvent>, i: nat, j: nat)
    requires i <= j <= |evs|
    requires forall m :: i <= m < j ==> !EndsAt(evs, m)
    ensures FirstEnd(evs, i) == FirstEnd(evs, j)
    decreases j - i
  {
    if i < j {
      FirstEndSkips(evs, i + 1, j);
    }
  }

  /** The loop, started with the counter at 0, ends in the state the
      reference description gives: frames extended by the successful
      reads before the first ending event, recording cleared by that event,
      and the error flag set exactly when that event is a fault. */
  lemma RunMeetsReference(s: Session, evs: seq<CaptureEvent>)
    requires s.recording
    ensures Run(s, 0, evs) == Expected(s, evs)
  {
    assert evs[..0] == [] && evs[0..] == evs;
    assert s.(frames := s.frames + []) == s;
    RunFrom(s, evs, 0);
  }

  /** Only a successful read adds to the frames, and it adds at the end:
      the loop's frames are the old frames followed by the chunks of the
      successful reads it took, in order. */
  lemma RunAppendsOkChunks(s: Session, evs: seq<CaptureEvent>)
    requires s.recording
    ensures Run(s, 0, evs).frames == s.frames + OkChunks(evs[..FirstEnd(evs, 0)])
  {
    RunMeetsReference(s, evs);
    assert evs[..|evs|] == evs;
  }

  /** The loop sets the error flag exactly when, before any stop, some read
      raises a non-`OSError` exception or completes five `OSError`s in a
      row. */
  lemma RunFaultsIff(s: Session, evs: seq<CaptureEvent>)
    requires s.recording && !s.error
    ensures Run(s, 0, evs).error <==>
      exists k :: 0 <= k < |evs| && FaultsAt(evs, k) && Stop !in evs[..k]
  {
    RunMeetsReference(s, evs);
    var e := FirstEnd(evs, 0);
    if e < |evs| && FaultsAt(evs, e) {
      assert Stop !in evs[..e] by {
        forall j | 0 <= j < e ensures evs[..e][j] != Stop { assert !EndsAt(evs, j); }
      }
    }
    if exists k :: 0 <= k < |evs| && FaultsAt(evs, k) && Stop !in evs[..k] {
      var k :| 0 <= k < |evs| && FaultsAt(evs, k) && Stop !in evs[..k];
      assert EndsAt(evs, k);
      assert e <= k;
      if e < k { assert evs[..k][e] == evs[e]; }
      assert FaultsAt(evs, e);
    }
  }

  /** Fewer than five `OSError`s in a row and no other exception: the
      session is never faulted. */
  lemma FewerThanFiveNeverFault(s: Session, evs: seq<CaptureEvent>)
    requires s.recording && !s.error
    requires Read(OtherFault) !in evs
    requires forall k :: 0 <= k < |evs| ==> OSFaultsEndingAt(evs, k) < MaxConsecutiveErrors
    ensures !Run(s, 0, evs).error
  {
    RunFaultsIff(s, evs);
  }

  lemma {:induction false} TrailingRun(evs: seq<CaptureEvent>, k: nat, m: nat)
    requires k + m <= |evs|
    requires forall j :: k <= j < k + m ==> evs[j] == Read(OSFault)
    ensures TrailingOSFaults(evs[..k + m]) >= m
    decreases m
  {
    if m > 0 {
      TrailingRun(evs, k, m - 1);
      OkChunksStep(evs, k + m - 1);
    }
  }

  /** Five `OSError`s in a row before any stop fault the session and end
      recording, however many chunks had been read before them. */
  lemma FiveInARowFault(s: Session, evs: seq<CaptureEvent>, k: nat)
    requires s.recording && !s.error
    requires k + MaxConsecutiveErrors <= |evs|
    requires forall j :: k <= j < k + MaxConsecutiveErrors ==> evs[j] == Read(OSFault)
    requires Stop !in evs[..k]
    ensures Run(s, 0, evs).error && !Run(s, 0, evs).recording
  {
    TrailingRun(evs, k, MaxConsecutiveErrors);
    var f := k + MaxConsecutiveErrors - 1;
    assert FaultsAt(evs, f);
    assert Stop !in evs[..f] by {
      forall j | 0 <= j < f ensures evs[..f][j] != Stop {
        if j < k { assert evs[..k][j] == evs[j]; }
      }
    }
    RunFaultsIff(s, evs);
    RunMeetsReference(s, evs);
  }

  /** A loop that runs out of events without a stop or a fault is still
      recording and has kept every chunk. */
  lemma RunWithoutEnd(s: Session, evs: seq<CaptureEvent>)
    requires s.recording
    requires forall k :: 0 <= k < |evs| ==> !EndsAt(evs, k)
    ensures Run(s, 0, evs) == s.(frames := s.frames + OkChunks(evs))
  {
    RunMeetsReference(s, evs);
  }

  /** A recording session is never faulted, and the loop keeps it so. */
  lemma {:induction false} RunKeepsHealthy(s: Session, consecutive: nat, evs: seq<CaptureEvent>)
    requires s.recording ==> !s.error
    ensures var r := Run(s, consecutive, evs); r.recording ==> !r.error
    decreases |evs|
  {
    if s.recording && evs != [] {
      match evs[0]
      case Stop =>
      case Read(Data(c)) => RunKeepsHealthy(s.(frames := s.frames + [c]), 0, evs[1..]);
      case Read(OSFault) =>
        if consecutive + 1 < MaxConsecutiveErrors { RunKeepsHealthy(s, consecutive + 1, evs[1..]); }
      case Read(OtherFault) =>
    }
  }

  /** Scenario: a chunk, then one `OSError`; the loop is still recording. */
  lemma ReadThenHiccup(s: Session, c: Chunk)
    requires s.recording
    ensures Run(s, 0, [Read(Data(c)), Read(OSFault)]) == s.(frames := s.frames + [c])
  {
    var evs := [Read(Data(c)), Read(OSFault)];
    var s' := s.(frames := s.frames + [c]);
    assert evs[1..] == [Read(OSFault)] && evs[1..][1..] == [];
    assert Run(s, 0, evs) == Run(s', 0, [Read(OSFault)]);
    assert Run(s', 0, [Read(OSFault)]) == Run(s', 1, []);
  }

  /** Scenario: one `OSError`, a chunk, then the stop: the chunk is kept. */
  lemma HiccupReadStop(s: Session, c: Chunk)
    requires s.recording
    ensures Run(s, 0, [Read(OSFault), Read(Data(c)), Stop]) == s.(recording := false, frames := s.frames + [c])
  {
    var evs := [Read(OSFault), Read(Data(c)), Stop];
    var s' := s.(frames := s.frames + [c]);
    assert evs[1..] == [Read(Data(c)), Stop] && evs[1..][1..] == [Stop];
    assert Run(s, 0, evs) == Run(s, 1, [Read(Data(c)), Stop]);
    assert Run(s, 1, [Read(Data(c)), Stop]) == Run(s', 0, [Stop]);
  }
}
