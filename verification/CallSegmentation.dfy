/**
 The frame loop of one phone call: it cuts the caller's audio into utterances.

 A `Line` is everything one call is fed: the frames with the clock, the guard and the outcome of
 opening a session at each of them. `At` is the state of the loop before frame `n`, `Utterances`
 what it has handed to speech recognition by then.
 */
module CallSegmentation {
  import opened Wrappers
  import opened FrameCodec
  import opened VoiceActivity
  import opened Duplex

  const SILENCE_FLUSH_SECS := 1.0
  const MAX_BUFFER_BYTES := 8000 * 2 * 8
  const MIN_UTTERANCE_BYTES := 1600

  /** One inbound frame; `opens` says whether opening a voice session succeeds now. */
  datatype Inbound = Inbound(frame: Frame, now: real, guard: GuardState, opens: bool)

  datatype Call = Call(
    sessionOpen: bool,
    vad: VadState,
    buffer: seq<Byte>,
    inUtterance: bool,
    lastSpeech: real,
    ended: bool)

  /** A detector that hears nothing, ever. */
  function Deaf(s: VadState, raw: seq<Byte>): (bool, VadState) {
    (false, s)
  }

  /** One step of a voice-activity detector: verdict on a payload, next state. No bytes, no speech. */
  type Detector = d: (VadState, seq<Byte>) -> (bool, VadState) | forall s, raw :: d(s, raw).0 ==> raw != [] witness Deaf

  function EnergyDetector(cfg: VadConfig, rms: EnergyFunction): Detector {
    (s, raw) => StepFrame(cfg, rms, s, raw)
  }

  datatype Line = Line(detect: Detector, start: real, ins: seq<Inbound>)

  function Fresh(start: real): Call {
    Call(false, INITIAL, [], false, start, false)
  }

  // ----- one frame

  function Cut(c: Call): Call {
    c.(buffer := [], inUtterance := false)
  }

  /** The first half of the audio branch: absorb the frame, flush on a second of silence. */
  function Absorb(c: Call, speech: bool, payload: seq<Byte>, now: real): (Call, seq<seq<Byte>>) {
    if speech then
      (c.(buffer := c.buffer + payload, lastSpeech := now, inUtterance := true), [])
    else if c.inUtterance then
      var grown := c.(buffer := c.buffer + payload);
      if now - grown.lastSpeech >= SILENCE_FLUSH_SECS && |grown.buffer| > MIN_UTTERANCE_BYTES then
        (Cut(grown), [grown.buffer])
      else
        (grown, [])
    else
      (c, [])
  }

  /** The second half: flush a full buffer. */
  function FlushFull(c: Call): (Call, seq<seq<Byte>>) {
    if |c.buffer| >= MAX_BUFFER_BYTES then (Cut(c), [c.buffer]) else (c, [])
  }

  function HearAudio(detect: Detector, c: Call, payload: seq<Byte>, now: real): (Call, seq<seq<Byte>>)
  {
    var (speech, vad) := detect(c.vad, payload);
    var (absorbed, bySilence) := Absorb(c.(vad := vad), speech, payload, now);
    var (flushed, bySize) := FlushFull(absorbed);
    (flushed, bySilence + bySize)
  }

  predicate Hears(c: Call, i: Inbound) {
    !c.ended && i.frame.kind == KIND_AUDIO && c.sessionOpen && !IsMuted(i.guard, i.now)
  }

  /** The next state and the utterances spawned by one frame. */
  function HandleFrame(detect: Detector, c: Call, i: Inbound): (Call, seq<seq<Byte>>) {
    if c.ended then (c, [])
    else if i.frame.kind == KIND_HANGUP then (c.(ended := true), [])
    else if i.frame.kind == KIND_UUID then
      (if i.opens then c.(sessionOpen := true) else c.(ended := true), [])
    else if Hears(c, i) then HearAudio(detect, c, i.frame.payload, i.now)
    else (c, [])
  }

  // ----- whole calls

  function At(l: Line, n: nat): Call
    requires n <= |l.ins|
  {
    if n == 0 then Fresh(l.start) else HandleFrame(l.detect, At(l, n - 1), l.ins[n - 1]).0
  }

  /** What frame `i` spawns. */
  function Spawns(l: Line, i: nat): seq<seq<Byte>>
    requires i < |l.ins|
  {
    HandleFrame(l.detect, At(l, i), l.ins[i]).1
  }

  function Utterances(l: Line, n: nat): seq<seq<Byte>>
    requires n <= |l.ins|
  {
    if n == 0 then [] else Utterances(l, n - 1) + Spawns(l, n - 1)
  }

  /** Frame j ends the call: a hangup, or an identifier for which no session could be opened. */
  predicate Ends(l: Line, j: nat)
    requires j < |l.ins|
  {
    l.ins[j].frame.kind == KIND_HANGUP || (l.ins[j].frame.kind == KIND_UUID && !l.ins[j].opens)
  }

  predicate EndsBefore(l: Line, n: nat)
    requires n <= |l.ins|
  {
    exists j :: 0 <= j < n && Ends(l, j)
  }

  /** A session was opened by one of the first n frames, before any of them ended the call. */
  predicate OpensBefore(l: Line, n: nat)
    requires n <= |l.ins|
  {
    exists j :: 0 <= j < n && l.ins[j].frame.kind == KIND_UUID && l.ins[j].opens && !EndsBefore(l, j)
  }

  /** Frame i is audio that comes with a session open, the call not ended and the guard not muted. */
  predicate Heard(l: Line, i: nat)
    requires i < |l.ins|
  {
    && l.ins[i].frame.kind == 0x10
    && OpensBefore(l, i) && !EndsBefore(l, i)
    && !l.ins[i].guard.speaking && l.ins[i].now >= l.ins[i].guard.mutedUntil
  }

  /** The call has ended, and its session is open, exactly if the frames so far say so. */
  lemma {:induction false} StateMeaning(l: Line, n: nat)
    requires n <= |l.ins|
    ensures At(l, n).ended <==> EndsBefore(l, n)
    ensures At(l, n).sessionOpen <==> OpensBefore(l, n)
  {
    if n > 0 {
      StateMeaning(l, n - 1);
      EndsNext(l, n - 1);
      OpensNext(l, n - 1);
    }
  }

  lemma EndsNext(l: Line, n: nat)
    requires n < |l.ins|
    ensures EndsBefore(l, n + 1) <==> EndsBefore(l, n) || Ends(l, n)
  {
  }

  lemma OpensNext(l: Line, n: nat)
    requires n < |l.ins|
    ensures OpensBefore(l, n + 1) <==>
            OpensBefore(l, n) || (l.ins[n].frame.kind == KIND_UUID && l.ins[n].opens && !EndsBefore(l, n))
  {
    if j :| 0 <= j < n && l.ins[j].frame.kind == KIND_UUID && l.ins[j].opens && !EndsBefore(l, j) {
      assert j < n + 1;
    }
  }

  /** The loop hears exactly the frames that are to be heard. */
  lemma HeardMeaning(l: Line, i: nat)
    requires i < |l.ins|
    ensures Hears(At(l, i), l.ins[i]) <==> Heard(l, i)
  {
    StateMeaning(l, i);
  }

  predicate Spoken(l: Line, i: nat)
    requires i < |l.ins|
  {
    Heard(l, i) && l.detect(At(l, i).vad, l.ins[i].frame.payload).0
  }

  /** The frame arrived with a session open, unmuted, and is speech or inside an utterance. */
  predicate Kept(l: Line, i: nat)
    requires i < |l.ins|
  {
    Heard(l, i) && (Spoken(l, i) || At(l, i).inUtterance)
  }

  function Added(l: Line, i: nat): seq<Byte>
    requires i < |l.ins|
  {
    if Kept(l, i) then l.ins[i].frame.payload else []
  }

  function KeptAudio(l: Line, n: nat): seq<Byte>
    requires n <= |l.ins|
  {
    if n == 0 then [] else KeptAudio(l, n - 1) + Added(l, n - 1)
  }

  function Flatten(us: seq<seq<Byte>>): seq<Byte> {
    if us == [] then [] else us[0] + Flatten(us[1..])
  }

  lemma {:induction false} FlattenAppend(a: seq<seq<Byte>>, b: seq<seq<Byte>>)
    ensures Flatten(a + b) == Flatten(a) + Flatten(b)
  {
    if a == [] {
      assert a + b == b;
    } else {
      assert (a + b)[1..] == a[1..] + b;
      FlattenAppend(a[1..], b);
    }
  }

  lemma FlattenOne(u: seq<Byte>)
    ensures Flatten([u]) == u && Flatten([]) == []
  {
    assert [u][1..] == [];
  }

  /** Between frames an utterance is in progress iff the buffer holds something, and it is not full. */
  lemma {:induction false} BufferInvariant(l: Line, n: nat)
    requires n <= |l.ins|
    ensures At(l, n).inUtterance <==> At(l, n).buffer != []
    ensures |At(l, n).buffer| < MAX_BUFFER_BYTES
  {
    if n > 0 {
      BufferInvariant(l, n - 1);
      HandleFrameConserves(l, n - 1);
    }
  }

  /** Nothing the loop keeps is lost, duplicated or reordered. */
  lemma {:induction false} AudioConserved(l: Line, n: nat)
    requires n <= |l.ins|
    ensures Flatten(Utterances(l, n)) + At(l, n).buffer == KeptAudio(l, n)
  {
    if n == 0 {
      assert Utterances(l, 0) == [] && At(l, 0).buffer == [] && KeptAudio(l, 0) == [];
    } else {
      var m: nat := n - 1;
      AudioConserved(l, m);
      ConservedNext(l, m);
      assert m + 1 == n;
    }
  }

  lemma ConservedNext(l: Line, n: nat)
    requires n < |l.ins| && Flatten(Utterances(l, n)) + At(l, n).buffer == KeptAudio(l, n)
    ensures Flatten(Utterances(l, n + 1)) + At(l, n + 1).buffer == KeptAudio(l, n + 1)
  {
    SpawnsConserve(l, n);
    FlattenAppend(Utterances(l, n), Spawns(l, n));
    AppendAssociates(Flatten(Utterances(l, n)), Flatten(Spawns(l, n)), At(l, n + 1).buffer);
    AppendAssociates(Flatten(Utterances(l, n)), At(l, n).buffer, Added(l, n));
  }

  lemma SpawnsConserve(l: Line, i: nat)
    requires i < |l.ins|
    ensures Flatten(Spawns(l, i)) + At(l, i + 1).buffer == At(l, i).buffer + Added(l, i)
  {
    BufferInvariant(l, i);
    HandleFrameConserves(l, i);
  }

  lemma HandleFrameConserves(l: Line, i: nat)
    requires i < |l.ins|
    requires At(l, i).inUtterance <==> At(l, i).buffer != []
    requires |At(l, i).buffer| < MAX_BUFFER_BYTES
    ensures var (d, us) := HandleFrame(l.detect, At(l, i), l.ins[i]);
            && Flatten(us) + d.buffer == At(l, i).buffer + Added(l, i)
            && (d.inUtterance <==> d.buffer != [])
            && |d.buffer| < MAX_BUFFER_BYTES
  {
    HeardMeaning(l, i);
    if Hears(At(l, i), l.ins[i]) {
      HearAudioConserves(l.detect, At(l, i), l.ins[i].frame.payload, l.ins[i].now);
    }
  }

  lemma HearAudioConserves(detect: Detector, c: Call, payload: seq<Byte>, now: real)
    requires c.inUtterance <==> c.buffer != []
    requires |c.buffer| < MAX_BUFFER_BYTES
    ensures var (d, us) := HearAudio(detect, c, payload, now);
            var kept := detect(c.vad, payload).0 || c.inUtterance;
            && Flatten(us) + d.buffer == c.buffer + (if kept then payload else [])
            && (d.inUtterance <==> d.buffer != [])
            && |d.buffer| < MAX_BUFFER_BYTES
            && |us| <= 1
  {
    FlattenOne(c.buffer + payload);
  }

  /** The time of the last speech frame among the first `n`, or the start of the call. */
  function LastSpoken(l: Line, n: nat): real
    requires n <= |l.ins|
  {
    if n == 0 then l.start
    else if Spoken(l, n - 1) then l.ins[n - 1].now
    else LastSpoken(l, n - 1)
  }

  lemma {:induction false} LastSpeechMeaning(l: Line, n: nat)
    requires n <= |l.ins|
    ensures At(l, n).lastSpeech == LastSpoken(l, n)
  {
    if n > 0 {
      LastSpeechMeaning(l, n - 1);
      HeardMeaning(l, n - 1);
    }
  }

  /** One frame cuts at most one utterance, of bounded size, and only for one of two reasons. */
  lemma CutReasons(l: Line, i: nat)
    requires i < |l.ins| && Sendable(l.ins[i].frame)
    ensures |Spawns(l, i)| <= 1
    ensures Spawns(l, i) != [] ==>
              var u := Spawns(l, i)[0];
              && u == At(l, i).buffer + l.ins[i].frame.payload
              && |u| <= MAX_BUFFER_BYTES - 1 + 65535
              && (|| |u| >= MAX_BUFFER_BYTES
                  || (&& |u| > MIN_UTTERANCE_BYTES
                      && !Spoken(l, i)
                      && l.ins[i].now - LastSpoken(l, i) >= SILENCE_FLUSH_SECS))
  {
    BufferInvariant(l, i);
    LastSpeechMeaning(l, i);
    HeardMeaning(l, i);
    if Hears(At(l, i), l.ins[i]) {
      HearAudioConserves(l.detect, At(l, i), l.ins[i].frame.payload, l.ins[i].now);
    }
  }

  /** Conversely, a second of silence or a full buffer always cuts. */
  lemma CutsWhenDue(l: Line, i: nat)
    requires i < |l.ins| && Kept(l, i)
    requires var size := |At(l, i).buffer| + |l.ins[i].frame.payload|;
             || size >= MAX_BUFFER_BYTES
             || (&& size > MIN_UTTERANCE_BYTES
                 && !Spoken(l, i)
                 && l.ins[i].now - LastSpoken(l, i) >= SILENCE_FLUSH_SECS)
    ensures Spawns(l, i) == [At(l, i).buffer + l.ins[i].frame.payload]
    ensures At(l, i + 1).buffer == [] && !At(l, i + 1).inUtterance
  {
    LastSpeechMeaning(l, i);
    HeardMeaning(l, i);
  }

  // ----- what the detector sees

  /** The payloads that reached the detector among the first `n` frames. */
  function HeardAudio(l: Line, n: nat): seq<seq<Byte>>
    requires n <= |l.ins|
  {
    if n == 0 then []
    else HeardAudio(l, n - 1) + if Heard(l, n - 1) then [l.ins[n - 1].frame.payload] else []
  }

  function DetectorState(detect: Detector, heard: seq<seq<Byte>>, n: nat): VadState
    requires n <= |heard|
  {
    if n == 0 then INITIAL else detect(DetectorState(detect, heard, n - 1), heard[n - 1]).1
  }

  lemma {:induction false} DetectorStatePrefix(detect: Detector, a: seq<seq<Byte>>, b: seq<seq<Byte>>, n: nat)
    requires n <= |a| && a <= b
    ensures DetectorState(detect, a, n) == DetectorState(detect, b, n)
  {
    if n > 0 {
      DetectorStatePrefix(detect, a, b, n - 1);
      assert b[n - 1] == a[n - 1];
    }
  }

  /** Muted frames, and frames before a session, leave no trace in the detector. */
  lemma {:induction false} DetectorSeesHeard(l: Line, n: nat)
    requires n <= |l.ins|
    ensures var hs := HeardAudio(l, n);
            At(l, n).vad == DetectorState(l.detect, hs, |hs|)
  {
    if n > 0 {
      DetectorSeesHeard(l, n - 1);
      HeardMeaning(l, n - 1);
      var before, after := HeardAudio(l, n - 1), HeardAudio(l, n);
      DetectorStatePrefix(l.detect, before, after, |before|);
      if !Heard(l, n - 1) {
        assert after == before;
      }
    }
  }

  lemma {:induction false} EnergyDetectorState(cfg: VadConfig, rms: EnergyFunction, hs: seq<seq<Byte>>, n: nat)
    requires n <= |hs|
    ensures DetectorState(EnergyDetector(cfg, rms), hs, n) == FrameState(cfg, rms, hs, n)
  {
    if n > 0 {
      EnergyDetectorState(cfg, rms, hs, n - 1);
    }
  }

  /** A heard frame counts as speech iff the sliding window of heard frames holds an energetic one. */
  lemma SpokenIsWindow(cfg: VadConfig, rms: EnergyFunction, l: Line, i: nat)
    requires l.detect == EnergyDetector(cfg, rms)
    requires i < |l.ins| && Heard(l, i)
    ensures var es := Energies(rms, HeardAudio(l, i + 1), |HeardAudio(l, i + 1)|);
            Spoken(l, i) <==>
            && |l.ins[i].frame.payload| >= 2
            && exists j: nat :: |es| - 1 - cfg.hangoverFrames <= j < |es| && Energetic(cfg, es, j)
  {
    SpokenAsHeard(l, i);
    VerdictIsWindow(cfg, rms, l.detect, HeardAudio(l, i + 1), l.ins[i].frame.payload, Spoken(l, i));
  }

  lemma VerdictIsWindow(
      cfg: VadConfig, rms: EnergyFunction, detect: Detector, hs: seq<seq<Byte>>, payload: seq<Byte>, verdict: bool)
    requires detect == EnergyDetector(cfg, rms) && hs != [] && hs[|hs| - 1] == payload
    requires verdict <==> detect(DetectorState(detect, hs, |hs| - 1), payload).0
    ensures var es := Energies(rms, hs, |hs|);
            verdict <==>
            && |payload| >= 2
            && exists j: nat :: |es| - 1 - cfg.hangoverFrames <= j < |es| && Energetic(cfg, es, j)
  {
    LastHeardIsWindow(cfg, rms, hs);
  }

  lemma SpokenAsHeard(l: Line, i: nat)
    requires i < |l.ins| && Heard(l, i)
    ensures var hs := HeardAudio(l, i + 1);
            && |hs| > 0 && hs[|hs| - 1] == l.ins[i].frame.payload
            && (Spoken(l, i) <==> l.detect(DetectorState(l.detect, hs, |hs| - 1), hs[|hs| - 1]).0)
  {
    DetectorSeesHeard(l, i);
    var hs := HeardAudio(l, i + 1);
    DetectorStatePrefix(l.detect, HeardAudio(l, i), hs, |hs| - 1);
  }

  lemma LastHeardIsWindow(cfg: VadConfig, rms: EnergyFunction, hs: seq<seq<Byte>>)
    requires hs != []
    ensures var es := Energies(rms, hs, |hs|);
            var detect := EnergyDetector(cfg, rms);
            detect(DetectorState(detect, hs, |hs| - 1), hs[|hs| - 1]).0 <==>
            && |hs[|hs| - 1]| >= 2
            && exists j: nat :: |es| - 1 - cfg.hangoverFrames <= j < |es| && Energetic(cfg, es, j)
  {
    EnergyDetectorState(cfg, rms, hs, |hs| - 1);
    FrameSpeechIsWindow(cfg, rms, hs, |hs| - 1);
  }

  // ----- the loop over a socket

  lemma NextFrame(l: Line, n: nat)
    requires n < |l.ins|
    ensures At(l, n + 1) == HandleFrame(l.detect, At(l, n), l.ins[n]).0
    ensures Utterances(l, n + 1) == Utterances(l, n) + HandleFrame(l.detect, At(l, n), l.ins[n]).1
  {
  }

  /** What a call sees besides its bytes: the clock, the guard and the session service, per frame. */
  datatype World = World(now: real, guard: GuardState, opens: bool)

  function Feed(frames: seq<Frame>, world: nat -> World): seq<Inbound> {
    seq(|frames|, i requires 0 <= i < |frames| =>
      Inbound(frames[i], world(i).now, world(i).guard, world(i).opens))
  }

  lemma FrameTaken(frames: seq<Frame>, n: nat)
    requires n <= |frames| && frames[n..] != []
    ensures n < |frames| && frames[n..] == [frames[n]] + frames[n + 1..]
  {
  }

  lemma {:induction false} EndedStays(l: Line, i: nat, n: nat)
    requires i <= n <= |l.ins| && At(l, i).ended
    ensures At(l, n) == At(l, i) && Utterances(l, n) == Utterances(l, i)
  {
    if i < n {
      EndedStays(l, i, n - 1);
      EndedIgnores(l.detect, At(l, n - 1), l.ins[n - 1]);
    }
  }

  lemma EndedIgnores(detect: Detector, c: Call, i: Inbound)
    requires c.ended
    ensures HandleFrame(detect, c, i) == (c, [])
  {
  }

  class CallLoop {
    const vad: EnergyVad
    var sessionOpen: bool
    var audioBuffer: seq<Byte>
    var inUtterance: bool
    var lastSpeechTs: real
    var ended: bool
    var spawned: seq<seq<Byte>>

    function State(): Call
      reads this, vad
    {
      Call(sessionOpen, vad.State(), audioBuffer, inUtterance, lastSpeechTs, ended)
    }

    function Detect(): Detector {
      EnergyDetector(vad.config, vad.rms)
    }

    constructor (cfg: VadConfig, rms: EnergyFunction, start: real)
      ensures fresh(vad) && vad.config == cfg && vad.rms == rms
      ensures State() == Fresh(start) && spawned == []
    {
      vad := new EnergyVad(cfg, rms);
      sessionOpen, audioBuffer, inUtterance, lastSpeechTs, ended, spawned := false, [], false, start, false, [];
    }

    method Spawn()
      modifies this
      ensures State() == Cut(old(State()))
      ensures spawned == old(spawned) + [old(audioBuffer)]
    {
      spawned := spawned + [audioBuffer];
      audioBuffer := [];
      inUtterance := false;
    }

    method OnAudio(payload: seq<Byte>, now: real)
      modifies this, vad
      ensures State() == HearAudio(Detect(), old(State()), payload, now).0
      ensures spawned == old(spawned) + HearAudio(Detect(), old(State()), payload, now).1
    {
      var result := vad.ProcessPcm16Bytes(payload);
      if result.isSpeech {
        audioBuffer := audioBuffer + payload;
        lastSpeechTs := now;
        inUtterance := true;
      } else if inUtterance {
        audioBuffer := audioBuffer + payload;
        if now - lastSpeechTs >= SILENCE_FLUSH_SECS && |audioBuffer| > MIN_UTTERANCE_BYTES {
          Spawn();
        }
      }
      if |audioBuffer| >= MAX_BUFFER_BYTES {
        Spawn();
      }
    }

    method OnFrame(i: Inbound)
      modifies this, vad
      ensures State() == HandleFrame(Detect(), old(State()), i).0
      ensures spawned == old(spawned) + HandleFrame(Detect(), old(State()), i).1
    {
      if ended {
        return;
      }
      if i.frame.kind == KIND_HANGUP {
        ended := true;
      } else if i.frame.kind == KIND_UUID {
        if i.opens {
          sessionOpen := true;
        } else {
          ended := true;
        }
      } else if i.frame.kind == KIND_AUDIO {
        if sessionOpen && !IsMuted(i.guard, i.now) {
          OnAudio(i.frame.payload, i.now);
        }
      }
    }

    /** Read frames until the stream breaks or the call ends. */
    method Serve(reader: StreamReader, world: nat -> World)
      requires State() == Fresh(lastSpeechTs) && spawned == []
      modifies this, vad, reader
      ensures var l := Line(Detect(), old(lastSpeechTs), Feed(ReadAll(old(reader.buffer)).0, world));
              State() == At(l, |l.ins|) && spawned == Utterances(l, |l.ins|)
    {
      ghost var frames := ReadAll(reader.buffer).0;
      ghost var l := Line(Detect(), lastSpeechTs, Feed(frames, world));
      var n := 0;
      while !ended
        invariant n <= |frames|
        invariant !ended ==> ReadAll(reader.buffer).0 == frames[n..]
        invariant State() == At(l, n) && spawned == Utterances(l, n)
        decreases |frames| - n + if ended then 0 else 1
      {
        var got := reader.ReadFrame();
        if got.Err? {
          break;
        }
        FrameTaken(frames, n);
        OnFrame(Inbound(got.value, world(n).now, world(n).guard, world(n).opens));
        NextFrame(l, n);
        n := n + 1;
      }
      if ended {
        EndedStays(l, n, |l.ins|);
      }
    }
  }
}
