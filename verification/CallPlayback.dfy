/**
 Playback on one call: greeting and utterance tasks share a socket under a lock.

 Code between two awaits is atomic, so a run is a sequence of `Event`s, each one such stretch of
 one task or an action of the surroundings; an event that is not enabled changes nothing. The
 theorems hold after every sequence of events, that is, in every schedule.
 */
module CallPlayback {
  import opened Wrappers
  import opened FrameCodec
  import opened Duplex
  import opened CallSegmentation

  const FRAME_BYTES := 320

  // ----- chunking

  function ChunkCount(pcm: seq<Byte>): nat {
    (|pcm| + FRAME_BYTES - 1) / FRAME_BYTES
  }

  function Zeros(n: nat): seq<Byte> {
    seq(n, i => 0)
  }

  /** The k-th slice of the audio, padded with silence to a whole frame. */
  function Chunk(pcm: seq<Byte>, k: nat): (c: seq<Byte>)
    requires k * FRAME_BYTES < |pcm|
    ensures |c| == FRAME_BYTES
  {
    var start := k * FRAME_BYTES;
    if start + FRAME_BYTES <= |pcm| then pcm[start..start + FRAME_BYTES]
    else pcm[start..] + Zeros(start + FRAME_BYTES - |pcm|)
  }

  function ChunkFrames(pcm: seq<Byte>, n: nat): seq<Frame>
    requires n <= ChunkCount(pcm)
  {
    seq(n, k requires 0 <= k < n => Frame(KIND_AUDIO, Chunk(pcm, k)))
  }

  function Payloads(fs: seq<Frame>): seq<Byte> {
    if fs == [] then [] else Payloads(fs[..|fs| - 1]) + fs[|fs| - 1].payload
  }

  /** The chunks carry the audio itself, then less than one frame of silence. */
  lemma {:induction false} ChunksCarryAudio(pcm: seq<Byte>, n: nat)
    requires n <= ChunkCount(pcm)
    ensures var sent := Payloads(ChunkFrames(pcm, n));
            && |sent| == n * FRAME_BYTES
            && (if |sent| <= |pcm| then sent == pcm[..|sent|]
                else |sent| - |pcm| < FRAME_BYTES && sent == pcm + Zeros(|sent| - |pcm|))
  {
    if n > 0 {
      ChunksCarryAudio(pcm, n - 1);
      assert ChunkFrames(pcm, n)[..n - 1] == ChunkFrames(pcm, n - 1);
      ChunkContinues(pcm, n - 1);
    }
  }

  /** All the chunks together carry all of the audio. */
  lemma AllChunksCarryAll(pcm: seq<Byte>)
    ensures var sent := Payloads(ChunkFrames(pcm, ChunkCount(pcm)));
            |pcm| <= |sent| < |pcm| + FRAME_BYTES && sent == pcm + Zeros(|sent| - |pcm|)
  {
    ChunksCarryAudio(pcm, ChunkCount(pcm));
  }

  lemma ChunkContinues(pcm: seq<Byte>, k: nat)
    requires k * FRAME_BYTES < |pcm|
    ensures var start := k * FRAME_BYTES;
            var next := start + FRAME_BYTES;
            pcm[..start] + Chunk(pcm, k) == if next <= |pcm| then pcm[..next] else pcm + Zeros(next - |pcm|)
  {
    var start := k * FRAME_BYTES;
    if start + FRAME_BYTES > |pcm| {
      var pad := Zeros(start + FRAME_BYTES - |pcm|);
      assert pcm[..start] + (pcm[start..] + pad) == (pcm[..start] + pcm[start..]) + pad;
      assert pcm[..start] + pcm[start..] == pcm;
    }
  }

  // ----- tasks

  datatype Job = Greeting | Apology | Transfer | Reply

  /** The playbacks of one job, under one hold of the lock; true means guarded. */
  function Plays(j: Job): seq<bool> {
    match j
    case Greeting => [true]
    case Apology => [true]
    case Transfer => [true, true]
    case Reply => [false]
  }

  datatype Phase = Synthesizing | Streaming(pcm: seq<Byte>, sent: nat)

  datatype TaskState = Waiting | Playing(play: nat, phase: Phase) | Finished

  datatype Task = Task(job: Job, st: TaskState)

  /** One frame on the socket and who wrote it. */
  datatype Write = Write(task: nat, play: nat, chunk: nat, data: seq<Byte>)

  /**
   `log`, `audio` and `ends` record history: the writes in order, the audio of each playback
   that got as far as having some, and when guarded playbacks ended.
   */
  datatype Net = Net(
    tasks: seq<Task>,
    holder: Option<nat>,
    closing: bool,
    guard: GuardState,
    now: real,
    socket: seq<Byte>,
    log: seq<Write>,
    audio: map<(nat, nat), seq<Byte>>,
    ends: seq<real>)

  function Start(now: real): Net {
    Net([], None, false, QUIET, now, [], [], map[], [])
  }

  datatype Event =
    | Spawn(job: Job)
    | Acquire(task: nat)
    | Synthesized(task: nat, result: Option<seq<Byte>>)
    | Resume(task: nat, ok: bool)
    | Cancel(task: nat)
    | Disconnect
    | Advance(dt: real)

  function SetTask(n: Net, t: nat, st: TaskState): Net
    requires t < |n.tasks|
  {
    n.(tasks := n.tasks[t := n.tasks[t].(st := st)])
  }

  function Release(n: Net, t: nat): Net
    requires t < |n.tasks|
  {
    SetTask(n, t, Finished).(holder := None)
  }

  /** The lock holder reaches its p-th playback. */
  function BeginPlay(n: Net, t: nat, p: nat): Net
    requires t < |n.tasks|
  {
    if p >= |Plays(n.tasks[t].job)| || n.closing then Release(n, t)
    else
      SetTask(n, t, Playing(p, Synthesizing)).(
        guard := if Plays(n.tasks[t].job)[p] then Started(n.guard) else n.guard)
  }

  /** The `finally` of a playback. */
  function StopGuard(n: Net, guarded: bool): Net {
    if guarded then n.(guard := Stopped(n.guard, n.now), ends := n.ends + [n.now]) else n
  }

  function EndPlay(n: Net, t: nat, p: nat): Net
    requires t < |n.tasks| && p < |Plays(n.tasks[t].job)|
  {
    BeginPlay(StopGuard(n, Plays(n.tasks[t].job)[p]), t, p + 1)
  }

  /** The head of the chunk loop, with k chunks sent. */
  function SendNext(n: Net, t: nat, p: nat, pcm: seq<Byte>, k: nat): Net
    requires t < |n.tasks| && p < |Plays(n.tasks[t].job)|
  {
    if k * FRAME_BYTES >= |pcm| || n.closing then EndPlay(n, t, p)
    else
      var data := Chunk(pcm, k);
      SetTask(n, t, Playing(p, Streaming(pcm, k + 1))).(
        socket := n.socket + Pack(Frame(KIND_AUDIO, data)),
        log := n.log + [Write(t, p, k, data)])
  }

  predicate IsPlaying(n: Net, t: nat) {
    t < |n.tasks| && n.tasks[t].st.Playing? && n.tasks[t].st.play < |Plays(n.tasks[t].job)|
  }

  function Step(n: Net, e: Event): Net {
    match e
    case Spawn(job) => n.(tasks := n.tasks + [Task(job, Waiting)])
    case Acquire(t) =>
      if t < |n.tasks| && n.tasks[t].st.Waiting? && n.holder == None
      then BeginPlay(n.(holder := Some(t)), t, 0) else n
    case Synthesized(t, result) =>
      if IsPlaying(n, t) && n.tasks[t].st.phase.Synthesizing? then
        var p := n.tasks[t].st.play;
        match result
        case None => EndPlay(n, t, p)
        case Some(pcm) => SendNext(n.(audio := n.audio[(t, p) := pcm]), t, p, pcm, 0)
      else n
    case Resume(t, ok) =>
      if IsPlaying(n, t) && n.tasks[t].st.phase.Streaming? then
        var Playing(p, Streaming(pcm, k)) := n.tasks[t].st;
        if ok then SendNext(n, t, p, pcm, k) else EndPlay(n, t, p)
      else n
    case Cancel(t) =>
      if IsPlaying(n, t) then Release(StopGuard(n, Plays(n.tasks[t].job)[n.tasks[t].st.play]), t)
      else if t < |n.tasks| then SetTask(n, t, Finished)
      else n
    case Disconnect => n.(closing := true)
    case Advance(dt) => if dt >= 0.0 then n.(now := n.now + dt) else n
  }

  function Run(start: real, es: seq<Event>): Net {
    if es == [] then Start(start) else Step(Run(start, es[..|es| - 1]), es[|es| - 1])
  }

  // ----- the invariant

  function AudioFrame(w: Write): Frame {
    Frame(KIND_AUDIO, w.data)
  }

  function LogFrames(log: seq<Write>): seq<Frame> {
    seq(|log|, i requires 0 <= i < |log| => AudioFrame(log[i]))
  }

  /** Every write is the chunk it says it is, of the audio of its playback. */
  ghost predicate WritesTrue(log: seq<Write>, audio: map<(nat, nat), seq<Byte>>) {
    forall i :: 0 <= i < |log| ==>
      && (log[i].task, log[i].play) in audio
      && log[i].chunk * FRAME_BYTES < |audio[(log[i].task, log[i].play)]|
      && log[i].data == Chunk(audio[(log[i].task, log[i].play)], log[i].chunk)
  }

  /** Only tasks that have had the lock have audio. */
  ghost predicate AudioOwned(tasks: seq<Task>, audio: map<(nat, nat), seq<Byte>>) {
    forall key :: key in audio ==> key.0 < |tasks| && !tasks[key.0].st.Waiting?
  }

  ghost predicate Absent(log: seq<Write>, n: nat, t: nat)
    requires n <= |log|
  {
    forall i :: 0 <= i < n ==> log[i].task != t
  }

  /** Write j continues a playback, or opens the task's next one, or is the task's first write. */
  ghost predicate Linked(log: seq<Write>, j: nat)
    requires j < |log|
  {
    var w := log[j];
    if j > 0 && log[j - 1].task == w.task then
      || (w.play == log[j - 1].play && w.chunk == log[j - 1].chunk + 1)
      || (w.play > log[j - 1].play && w.chunk == 0)
    else
      w.chunk == 0 && Absent(log, j, w.task)
  }

  ghost predicate WritesOrdered(log: seq<Write>) {
    forall j :: 0 <= j < |log| ==> Linked(log, j)
  }

  /** The holder t is about to write chunk k of playback p: its writes so far end the log. */
  ghost predicate HolderAt(log: seq<Write>, t: nat, p: nat, k: nat) {
    if log != [] && log[|log| - 1].task == t then
      var last := log[|log| - 1];
      if k > 0 then last.play == p && last.chunk == k - 1 else last.play < p
    else
      k == 0 && Absent(log, |log|, t)
  }

  ghost predicate AudioBelow(audio: map<(nat, nat), seq<Byte>>, t: nat, p: nat) {
    forall q :: (t, q) in audio ==> q < p
  }

  function LastEnd(ends: seq<real>): real {
    if ends == [] then 0.0 else ends[|ends| - 1] + TAIL_GUARD_SECS
  }

  ghost predicate ClockOk(now: real, ends: seq<real>) {
    && 0.0 <= now
    && (forall i :: 0 <= i < |ends| ==> 0.0 <= ends[i] <= now)
    && (forall i, j :: 0 <= i < j < |ends| ==> ends[i] <= ends[j])
  }

  ghost predicate GuardOk(n: Net, active: bool) {
    n.guard == GuardState(active, LastEnd(n.ends))
  }

  ghost predicate LogOk(log: seq<Write>, audio: map<(nat, nat), seq<Byte>>, socket: seq<Byte>) {
    && WritesTrue(log, audio)
    && WritesOrdered(log)
    && socket == PackAll(LogFrames(log))
  }

  ghost predicate OnlyHolderPlays(tasks: seq<Task>, holder: Option<nat>) {
    && (holder.Some? ==> holder.value < |tasks|)
    && (forall t :: 0 <= t < |tasks| && holder != Some(t) ==> !tasks[t].st.Playing?)
  }

  ghost predicate Common(n: Net) {
    && ClockOk(n.now, n.ends)
    && LogOk(n.log, n.audio, n.socket)
    && AudioOwned(n.tasks, n.audio)
    && OnlyHolderPlays(n.tasks, n.holder)
  }

  ghost predicate Progress(n: Net, t: nat, p: nat, phase: Phase) {
    match phase
    case Synthesizing => HolderAt(n.log, t, p, 0) && AudioBelow(n.audio, t, p)
    case Streaming(pcm, k) =>
      && HolderAt(n.log, t, p, k)
      && AudioBelow(n.audio, t, p + 1)
      && (t, p) in n.audio && n.audio[(t, p)] == pcm
  }

  ghost predicate Inv(n: Net) {
    && Common(n)
    && match n.holder
       case None => GuardOk(n, false)
       case Some(t) =>
         && IsPlaying(n, t)
         && GuardOk(n, Plays(n.tasks[t].job)[n.tasks[t].st.play])
         && Progress(n, t, n.tasks[t].st.play, n.tasks[t].st.phase)
  }

  /** Task t holds the lock and has finished the playbacks before p. */
  ghost predicate Between(n: Net, t: nat, p: nat) {
    && Common(n)
    && n.holder == Some(t)
    && GuardOk(n, false)
    && HolderAt(n.log, t, p, 0)
    && AudioBelow(n.audio, t, p)
  }

  /** Task t holds the lock inside playback p, with k chunks sent of it. */
  ghost predicate Inside(n: Net, t: nat, p: nat, k: nat) {
    && Common(n)
    && n.holder == Some(t)
    && !n.tasks[t].st.Waiting?
    && p < |Plays(n.tasks[t].job)|
    && GuardOk(n, Plays(n.tasks[t].job)[p])
    && HolderAt(n.log, t, p, k)
    && AudioBelow(n.audio, t, p + 1)
  }

  // ----- every step keeps it

  lemma SetTaskKeeps(n: Net, t: nat, st: TaskState)
    requires Common(n) && t < |n.tasks| && !st.Waiting?
    requires n.holder == Some(t) || !st.Playing?
    ensures Common(SetTask(n, t, st))
  {
  }

  lemma ReleaseKeeps(n: Net, t: nat)
    requires Common(n) && n.holder == Some(t) && GuardOk(n, false)
    ensures Inv(Release(n, t))
  {
    SetTaskKeeps(n, t, Finished);
  }

  lemma BeginPlayKeeps(n: Net, t: nat, p: nat)
    requires Between(n, t, p)
    ensures Inv(BeginPlay(n, t, p))
  {
    if p >= |Plays(n.tasks[t].job)| || n.closing {
      ReleaseKeeps(n, t);
    } else {
      SetTaskKeeps(n, t, Playing(p, Synthesizing));
    }
  }

  lemma StopGuardKeeps(n: Net, t: nat, p: nat, k: nat)
    requires Inside(n, t, p, k)
    ensures Between(StopGuard(n, Plays(n.tasks[t].job)[p]), t, p + 1)
  {
    EndRecorded(n.now, n.ends);
  }

  lemma EndRecorded(now: real, ends: seq<real>)
    requires ClockOk(now, ends)
    ensures ClockOk(now, ends + [now]) && LastEnd(ends) <= LastEnd(ends + [now])
  {
  }

  lemma EndPlayKeeps(n: Net, t: nat, p: nat, k: nat)
    requires Inside(n, t, p, k)
    ensures Inv(EndPlay(n, t, p))
  {
    StopGuardKeeps(n, t, p, k);
    BeginPlayKeeps(StopGuard(n, Plays(n.tasks[t].job)[p]), t, p + 1);
  }

  lemma AppendOrdered(log: seq<Write>, w: Write)
    requires WritesOrdered(log) && HolderAt(log, w.task, w.play, w.chunk)
    ensures WritesOrdered(log + [w])
    ensures HolderAt(log + [w], w.task, w.play, w.chunk + 1)
  {
    var longer := log + [w];
    forall j | 0 <= j < |longer|
      ensures Linked(longer, j)
    {
      if j < |log| {
        assert Linked(log, j);
        assert forall i :: 0 <= i <= j ==> longer[i] == log[i];
      } else if log != [] {
        assert longer[j - 1] == log[j - 1];
      }
    }
  }

  lemma AppendPacked(log: seq<Write>, w: Write)
    requires forall i :: 0 <= i < |log| ==> |log[i].data| == FRAME_BYTES
    requires |w.data| == FRAME_BYTES
    ensures PackAll(LogFrames(log + [w])) == PackAll(LogFrames(log)) + Pack(AudioFrame(w))
  {
    assert LogFrames(log + [w]) == LogFrames(log) + [AudioFrame(w)];
    PackAllAppend(LogFrames(log), [AudioFrame(w)]);
    assert [AudioFrame(w)][1..] == [];
  }

  lemma AppendLogOk(log: seq<Write>, audio: map<(nat, nat), seq<Byte>>, socket: seq<Byte>, w: Write)
    requires LogOk(log, audio, socket) && HolderAt(log, w.task, w.play, w.chunk)
    requires (w.task, w.play) in audio && w.chunk * FRAME_BYTES < |audio[(w.task, w.play)]|
    requires w.data == Chunk(audio[(w.task, w.play)], w.chunk)
    ensures LogOk(log + [w], audio, socket + Pack(AudioFrame(w)))
  {
    AppendOrdered(log, w);
    AppendPacked(log, w);
  }

  lemma SendNextKeeps(n: Net, t: nat, p: nat, pcm: seq<Byte>, k: nat)
    requires Inside(n, t, p, k)
    requires (t, p) in n.audio && n.audio[(t, p)] == pcm
    ensures Inv(SendNext(n, t, p, pcm, k))
  {
    if k * FRAME_BYTES >= |pcm| || n.closing {
      EndPlayKeeps(n, t, p, k);
    } else {
      var w := Write(t, p, k, Chunk(pcm, k));
      AppendLogOk(n.log, n.audio, n.socket, w);
      AppendOrdered(n.log, w);
      SetTaskKeeps(n, t, Playing(p, Streaming(pcm, k + 1)));
    }
  }

  lemma AcquireKeeps(n: Net, t: nat)
    requires Inv(n) && t < |n.tasks| && n.tasks[t].st.Waiting? && n.holder == None
    ensures Inv(Step(n, Acquire(t)))
  {
    BeginPlayKeeps(n.(holder := Some(t)), t, 0);
  }

  lemma SynthesizedKeeps(n: Net, t: nat, result: Option<seq<Byte>>)
    requires Inv(n) && IsPlaying(n, t) && n.tasks[t].st.phase.Synthesizing?
    ensures Inv(Step(n, Synthesized(t, result)))
  {
    var p := n.tasks[t].st.play;
    match result
    case None => EndPlayKeeps(n, t, p, 0);
    case Some(pcm) =>
      var audio := n.audio[(t, p) := pcm];
      assert WritesTrue(n.log, audio);
      SendNextKeeps(n.(audio := audio), t, p, pcm, 0);
  }

  lemma ResumeKeeps(n: Net, t: nat, ok: bool)
    requires Inv(n) && IsPlaying(n, t) && n.tasks[t].st.phase.Streaming?
    ensures Inv(Step(n, Resume(t, ok)))
  {
    if ok {
      DrainedKeeps(n, t, n.tasks[t].st.play, n.tasks[t].st.phase.pcm, n.tasks[t].st.phase.sent);
    } else {
      NotDrainedKeeps(n, t, n.tasks[t].st.play, n.tasks[t].st.phase.sent);
    }
  }

  lemma DrainedKeeps(n: Net, t: nat, p: nat, pcm: seq<Byte>, k: nat)
    requires Inv(n) && IsPlaying(n, t) && n.tasks[t].st == Playing(p, Streaming(pcm, k))
    ensures Inv(SendNext(n, t, p, pcm, k))
  {
    SendNextKeeps(n, t, p, pcm, k);
  }

  lemma NotDrainedKeeps(n: Net, t: nat, p: nat, k: nat)
    requires Inv(n) && IsPlaying(n, t) && n.tasks[t].st.play == p
    requires n.tasks[t].st.phase.Streaming? && n.tasks[t].st.phase.sent == k
    ensures Inv(EndPlay(n, t, p))
  {
    EndPlayKeeps(n, t, p, k);
  }

  lemma CancelKeeps(n: Net, t: nat)
    requires Inv(n)
    ensures Inv(Step(n, Cancel(t)))
  {
    if IsPlaying(n, t) {
      var k := if n.tasks[t].st.phase.Streaming? then n.tasks[t].st.phase.sent else 0;
      StopGuardKeeps(n, t, n.tasks[t].st.play, k);
      ReleaseKeeps(StopGuard(n, Plays(n.tasks[t].job)[n.tasks[t].st.play]), t);
    } else if t < |n.tasks| {
      SetTaskKeeps(n, t, Finished);
    }
  }

  lemma SpawnKeeps(n: Net, job: Job)
    requires Inv(n)
    ensures Inv(Step(n, Spawn(job)))
  {
    var tasks := n.tasks + [Task(job, Waiting)];
    assert forall t :: 0 <= t < |n.tasks| ==> tasks[t] == n.tasks[t];
  }

  lemma StepKeeps(n: Net, e: Event)
    requires Inv(n)
    ensures Inv(Step(n, e))
  {
    match e
    case Spawn(job) => SpawnKeeps(n, job);
    case Acquire(t) =>
      if t < |n.tasks| && n.tasks[t].st.Waiting? && n.holder == None {
        AcquireKeeps(n, t);
      }
    case Synthesized(t, result) =>
      if IsPlaying(n, t) && n.tasks[t].st.phase.Synthesizing? {
        SynthesizedKeeps(n, t, result);
      }
    case Resume(t, ok) =>
      if IsPlaying(n, t) && n.tasks[t].st.phase.Streaming? {
        ResumeKeeps(n, t, ok);
      }
    case Cancel(t) => CancelKeeps(n, t);
    case Disconnect =>
    case Advance(dt) =>
  }

  lemma {:induction false} RunKeeps(start: real, es: seq<Event>)
    requires 0.0 <= start
    ensures Inv(Run(start, es))
  {
    if es != [] {
      RunKeeps(start, es[..|es| - 1]);
      StepKeeps(Run(start, es[..|es| - 1]), es[|es| - 1]);
    }
  }

  // ----- what it means for the socket

  predicate WrittenBy(w: Write, t: nat, p: nat) {
    w.task == t && w.play == p
  }

  /** The peer decodes whole 320-byte audio frames and nothing else, at every moment. */
  lemma {:induction false} SocketIsWholeFrames(start: real, es: seq<Event>)
    requires 0.0 <= start
    ensures var n := Run(start, es);
            && ReadAll(n.socket) == (LogFrames(n.log), [])
            && forall i :: 0 <= i < |n.log| ==>
                 LogFrames(n.log)[i].kind == KIND_AUDIO && |LogFrames(n.log)[i].payload| == FRAME_BYTES
  {
    RunKeeps(start, es);
    RoundTrip(LogFrames(Run(start, es).log));
  }

  /** Between two writes of one task lie only writes of that task, in playback and chunk order. */
  lemma {:induction false} TaskUninterrupted(log: seq<Write>, i: nat, m: nat, j: nat)
    requires WritesOrdered(log)
    requires i <= m <= j < |log| && log[i].task == log[j].task
    ensures log[m].task == log[i].task
    ensures log[i].play <= log[m].play <= log[j].play
    ensures log[m].play == log[j].play ==> log[j].chunk == log[m].chunk + (j - m)
    decreases j - i
  {
    if i < j {
      assert Linked(log, j);
      if log[j - 1].task != log[j].task {
        assert false;
      }
      TaskUninterrupted(log, i, if m < j then m else j - 1, j - 1);
    }
  }

  lemma {:induction false} BlockStart(log: seq<Write>, j: nat)
    requires WritesOrdered(log) && j < |log|
    ensures log[j].chunk <= j
    ensures WrittenBy(log[j - log[j].chunk], log[j].task, log[j].play) && log[j - log[j].chunk].chunk == 0
  {
    assert Linked(log, j);
    if log[j].chunk > 0 {
      BlockStart(log, j - 1);
    }
  }

  /** The last write of playback p of task t among the first `n`. */
  ghost function LastOf(log: seq<Write>, t: nat, p: nat, n: nat): (j: Option<nat>)
    requires n <= |log|
    ensures j.Some? ==> j.value < n && WrittenBy(log[j.value], t, p)
    ensures forall i :: 0 <= i < n && WrittenBy(log[i], t, p) ==> j.Some? && i <= j.value
  {
    if n == 0 then None
    else if WrittenBy(log[n - 1], t, p) then Some(n - 1)
    else LastOf(log, t, p, n - 1)
  }

  lemma {:induction false} PlaybackBlock(log: seq<Write>, audio: map<(nat, nat), seq<Byte>>, t: nat, p: nat)
    returns (s: nat, k: nat)
    requires WritesOrdered(log) && WritesTrue(log, audio) && (t, p) in audio
    ensures s + k <= |log| && k <= ChunkCount(audio[(t, p)])
    ensures forall i :: 0 <= i < |log| ==> (WrittenBy(log[i], t, p) <==> s <= i < s + k)
    ensures LogFrames(log)[s..s + k] == ChunkFrames(audio[(t, p)], k)
  {
    s, k := FindBlock(log, t, p);
    if k > 0 {
      BlockFrames(log, audio, t, p, s, k);
    }
  }

  lemma FindBlock(log: seq<Write>, t: nat, p: nat) returns (s: nat, k: nat)
    requires WritesOrdered(log)
    ensures s + k <= |log|
    ensures forall i :: 0 <= i < |log| ==> (WrittenBy(log[i], t, p) <==> s <= i < s + k)
    ensures forall i :: s <= i < s + k ==> log[i].chunk == i - s
  {
    s, k := 0, 0;
    var last := LastOf(log, t, p, |log|);
    if last.Some? {
      var j := last.value;
      BlockStart(log, j);
      s, k := j - log[j].chunk, log[j].chunk + 1;
      forall i | 0 <= i < |log|
        ensures WrittenBy(log[i], t, p) <==> s <= i < s + k
        ensures s <= i < s + k ==> log[i].chunk == i - s
      {
        InBlock(log, t, p, s, j, i);
      }
    }
  }

  /** Given the first write s and the last write j of a playback, all between are its chunks in order. */
  lemma InBlock(log: seq<Write>, t: nat, p: nat, s: nat, j: nat, i: nat)
    requires WritesOrdered(log) && s <= j < |log| && i < |log|
    requires WrittenBy(log[s], t, p) && log[s].chunk == 0
    requires WrittenBy(log[j], t, p) && log[j].chunk == j - s
    requires WrittenBy(log[i], t, p) ==> i <= j
    ensures WrittenBy(log[i], t, p) <==> s <= i <= j
    ensures s <= i <= j ==> log[i].chunk == i - s
  {
    if WrittenBy(log[i], t, p) {
      TaskUninterrupted(log, i, i, j);
    } else if s <= i <= j {
      TaskUninterrupted(log, s, i, j);
    }
  }

  lemma BlockFrames(log: seq<Write>, audio: map<(nat, nat), seq<Byte>>, t: nat, p: nat, s: nat, k: nat)
    requires WritesTrue(log, audio) && (t, p) in audio
    requires 0 < k && s + k <= |log|
    requires forall i :: s <= i < s + k ==> WrittenBy(log[i], t, p) && log[i].chunk == i - s
    ensures k <= ChunkCount(audio[(t, p)])
    ensures LogFrames(log)[s..s + k] == ChunkFrames(audio[(t, p)], k)
  {
    assert log[s + k - 1].chunk == k - 1;
    forall i | 0 <= i < k
      ensures LogFrames(log)[s..s + k][i] == Frame(KIND_AUDIO, Chunk(audio[(t, p)], i))
    {
      assert log[s + i].chunk == i;
    }
  }

  /**
   In every schedule the frames of one playback are one contiguous block of the stream, and that
   block is a prefix of the playback's chunked audio.
   */
  lemma {:induction false} EveryPlaybackIsABlock(start: real, es: seq<Event>, t: nat, p: nat) returns (s: nat, k: nat)
    requires 0.0 <= start && (t, p) in Run(start, es).audio
    ensures var n := Run(start, es);
            && s + k <= |n.log| && k <= ChunkCount(n.audio[(t, p)])
            && (forall i :: 0 <= i < |n.log| ==> (WrittenBy(n.log[i], t, p) <==> s <= i < s + k))
            && ReadAll(n.socket).0 == LogFrames(n.log)
            && LogFrames(n.log)[s..s + k] == ChunkFrames(n.audio[(t, p)], k)
  {
    RunKeeps(start, es);
    SocketIsWholeFrames(start, es);
    s, k := PlaybackBlock(Run(start, es).log, Run(start, es).audio, t, p);
  }

  // ----- when nothing disturbs it, a playback is complete

  /** Nothing in e ends a playback of task t early: no hangup, no cancellation of it, no failed drain. */
  predicate Undisturbed(e: Event, t: nat) {
    e != Disconnect && e != Cancel(t) && e != Resume(t, false)
  }

  /** Playback p of task t is over. */
  predicate Past(n: Net, t: nat, p: nat) {
    t < |n.tasks| && (n.tasks[t].st.Finished? || (n.tasks[t].st.Playing? && p < n.tasks[t].st.play))
  }

  /** The last of `count` chunks of the playback is on the socket. */
  ghost predicate WroteLast(log: seq<Write>, t: nat, p: nat, count: nat) {
    count > 0 ==> exists i :: 0 <= i < |log| && WrittenBy(log[i], t, p) && log[i].chunk == count - 1
  }

  /** The playbacks of task t before p have all been written out. */
  ghost predicate CompleteBefore(log: seq<Write>, audio: map<(nat, nat), seq<Byte>>, t: nat, p: nat) {
    forall q :: (t, q) in audio && q < p ==> WroteLast(log, t, q, ChunkCount(audio[(t, q)]))
  }

  ghost predicate Complete(n: Net, t: nat) {
    forall p :: (t, p) in n.audio && Past(n, t, p) ==> WroteLast(n.log, t, p, ChunkCount(n.audio[(t, p)]))
  }

  lemma WroteLastGrows(log: seq<Write>, longer: seq<Write>, t: nat, p: nat, count: nat)
    requires log <= longer && WroteLast(log, t, p, count)
    ensures WroteLast(longer, t, p, count)
  {
    if count > 0 {
      var i :| 0 <= i < |log| && WrittenBy(log[i], t, p) && log[i].chunk == count - 1;
      assert longer[i] == log[i];
    }
  }

  lemma CompleteBeforeGrows(log: seq<Write>, longer: seq<Write>, audio: map<(nat, nat), seq<Byte>>, t: nat, p: nat)
    requires log <= longer && CompleteBefore(log, audio, t, p)
    ensures CompleteBefore(longer, audio, t, p)
  {
    forall q | (t, q) in audio && q < p
      ensures WroteLast(longer, t, q, ChunkCount(audio[(t, q)]))
    {
      WroteLastGrows(log, longer, t, q, ChunkCount(audio[(t, q)]));
    }
  }

  /** Having sent k chunks and none being left, the task has sent them all. */
  lemma AllChunksSent(n: Net, t: nat, p: nat, k: nat)
    requires Inside(n, t, p, k) && (t, p) in n.audio && k * FRAME_BYTES >= |n.audio[(t, p)]|
    ensures WroteLast(n.log, t, p, ChunkCount(n.audio[(t, p)]))
    ensures CompleteBefore(n.log, n.audio, t, p) ==> CompleteBefore(n.log, n.audio, t, p + 1)
  {
    if k > 0 {
      var last := |n.log| - 1;
      assert WrittenBy(n.log[last], t, p) && n.log[last].chunk == k - 1;
      assert ChunkCount(n.audio[(t, p)]) == k;
    }
  }

  /** A task that is past playback p - 1 at most has completed what it is past. */
  lemma CompleteUpTo(n: Net, t: nat, p: nat)
    requires CompleteBefore(n.log, n.audio, t, p) && AudioBelow(n.audio, t, p)
    ensures Complete(n, t)
  {
  }

  lemma SendNextCompletes(n: Net, t: nat, p: nat, pcm: seq<Byte>, k: nat)
    requires Inside(n, t, p, k) && !n.closing
    requires (t, p) in n.audio && n.audio[(t, p)] == pcm && CompleteBefore(n.log, n.audio, t, p)
    ensures Complete(SendNext(n, t, p, pcm, k), t)
  {
    var m := SendNext(n, t, p, pcm, k);
    if k * FRAME_BYTES >= |pcm| {
      AllChunksSent(n, t, p, k);
      CompleteUpTo(m, t, p + 1);
    } else {
      CompleteBeforeGrows(n.log, m.log, n.audio, t, p);
      assert m.tasks[t].st.Playing? && m.tasks[t].st.play == p;
    }
  }

  lemma OwnStepCompletes(n: Net, e: Event, t: nat)
    requires Inv(n) && Complete(n, t) && !n.closing && Undisturbed(e, t)
    requires IsPlaying(n, t) && (e.Synthesized? || e.Resume?) && e.task == t
    ensures Complete(Step(n, e), t)
  {
    var p := n.tasks[t].st.play;
    assert CompleteBefore(n.log, n.audio, t, p);
    match n.tasks[t].st.phase
    case Synthesizing =>
      if e.Synthesized? {
        match e.result
        case None =>
          CompleteUpTo(Step(n, e), t, p);
        case Some(pcm) =>
          var audio := n.audio[(t, p) := pcm];
          assert WritesTrue(n.log, audio);
          SendNextCompletes(n.(audio := audio), t, p, pcm, 0);
      }
    case Streaming(pcm, k) =>
      if e.Resume? {
        SendNextCompletes(n, t, p, pcm, k);
      }
  }

  /** Audio of task t is added only when its own synthesis ends. */
  lemma OtherKeepsAudio(n: Net, e: Event, t: nat)
    requires !(e.Synthesized? && e.task == t)
    ensures forall p :: (t, p) in Step(n, e).audio <==> (t, p) in n.audio
    ensures forall p :: (t, p) in n.audio ==> Step(n, e).audio[(t, p)] == n.audio[(t, p)]
  {
  }

  /** A task that is past waiting moves only by its own synthesis, chunks and cancellation. */
  lemma OtherKeepsTask(n: Net, e: Event, t: nat)
    requires t < |n.tasks| && !n.tasks[t].st.Waiting? && Undisturbed(e, t)
    requires !((e.Synthesized? || e.Resume?) && e.task == t)
    ensures t < |Step(n, e).tasks| && Step(n, e).tasks[t] == n.tasks[t]
  {
  }

  lemma OtherStepCompletes(n: Net, e: Event, t: nat)
    requires AudioOwned(n.tasks, n.audio) && Complete(n, t) && Undisturbed(e, t)
    requires !((e.Synthesized? || e.Resume?) && e.task == t)
    ensures Complete(Step(n, e), t)
  {
    var m := Step(n, e);
    StepGrows(n, e);
    OtherKeepsAudio(n, e, t);
    forall p | (t, p) in m.audio && Past(m, t, p)
      ensures WroteLast(m.log, t, p, ChunkCount(m.audio[(t, p)]))
    {
      OtherKeepsTask(n, e, t);
      assert Past(n, t, p);
      WroteLastGrows(n.log, m.log, t, p, ChunkCount(n.audio[(t, p)]));
    }
  }

  lemma CompleteStep(n: Net, e: Event, t: nat)
    requires Inv(n) && Complete(n, t) && Undisturbed(e, t) && !n.closing
    ensures Complete(Step(n, e), t)
  {
    if (e.Synthesized? || e.Resume?) && e.task == t {
      if IsPlaying(n, t) {
        OwnStepCompletes(n, e, t);
      }
    } else {
      OtherStepCompletes(n, e, t);
    }
  }

  lemma StaysOpen(n: Net, e: Event)
    requires !n.closing && e != Disconnect
    ensures !Step(n, e).closing
  {
  }

  lemma {:induction false} CompleteRun(start: real, es: seq<Event>, t: nat)
    requires 0.0 <= start && forall i :: 0 <= i < |es| ==> Undisturbed(es[i], t)
    ensures Complete(Run(start, es), t) && !Run(start, es).closing
  {
    if es != [] {
      CompleteRun(start, es[..|es| - 1], t);
      RunKeeps(start, es[..|es| - 1]);
      CompleteStep(Run(start, es[..|es| - 1]), es[|es| - 1], t);
      StaysOpen(Run(start, es[..|es| - 1]), es[|es| - 1]);
    }
  }

  /**
   A playback that is over, in a schedule without hangup, cancellation of its task or failed drain,
   has all of its chunks on the socket, in one block.
   */
  lemma {:induction false} UndisturbedPlaybackIsWhole(start: real, es: seq<Event>, t: nat, p: nat) returns (s: nat)
    requires 0.0 <= start && forall i :: 0 <= i < |es| ==> Undisturbed(es[i], t)
    requires (t, p) in Run(start, es).audio && Past(Run(start, es), t, p)
    ensures var n := Run(start, es);
            var count := ChunkCount(n.audio[(t, p)]);
            && s + count <= |n.log|
            && (forall i :: 0 <= i < |n.log| ==> (WrittenBy(n.log[i], t, p) <==> s <= i < s + count))
            && LogFrames(n.log)[s..s + count] == ChunkFrames(n.audio[(t, p)], count)
  {
    CompleteRun(start, es, t);
    RunKeeps(start, es);
    var n := Run(start, es);
    s := WholeBlock(n.log, n.audio, t, p);
  }

  lemma WholeBlock(log: seq<Write>, audio: map<(nat, nat), seq<Byte>>, t: nat, p: nat) returns (s: nat)
    requires WritesOrdered(log) && WritesTrue(log, audio) && (t, p) in audio
    requires WroteLast(log, t, p, ChunkCount(audio[(t, p)]))
    ensures var count := ChunkCount(audio[(t, p)]);
            && s + count <= |log|
            && (forall i :: 0 <= i < |log| ==> (WrittenBy(log[i], t, p) <==> s <= i < s + count))
            && LogFrames(log)[s..s + count] == ChunkFrames(audio[(t, p)], count)
  {
    var k;
    s, k := FindBlock(log, t, p);
    var count := ChunkCount(audio[(t, p)]);
    if k > 0 {
      BlockFrames(log, audio, t, p, s, k);
    }
    if count > 0 {
      var i :| 0 <= i < |log| && WrittenBy(log[i], t, p) && log[i].chunk == count - 1;
      assert log[i].chunk == i - s;
    }
    assert k == count;
  }

  // ----- the audio that was synthesized is the audio that is played

  /** The task has been handed this audio for playback p, and goes on with it until it is out. */
  ghost predicate Carrying(n: Net, t: nat, p: nat, pcm: seq<Byte>) {
    && t < |n.tasks| && (t, p) in n.audio && n.audio[(t, p)] == pcm
    && match n.tasks[t].st
       case Waiting => false
       case Playing(q, phase) => if q == p then phase.Streaming? else p < q && WroteLast(n.log, t, p, ChunkCount(pcm))
       case Finished => WroteLast(n.log, t, p, ChunkCount(pcm))
  }

  lemma SendNextCarries(n: Net, t: nat, p: nat, pcm: seq<Byte>, k: nat)
    requires Inside(n, t, p, k) && !n.closing && (t, p) in n.audio && n.audio[(t, p)] == pcm
    ensures Carrying(SendNext(n, t, p, pcm, k), t, p, pcm)
  {
    if k * FRAME_BYTES >= |pcm| {
      AllChunksSent(n, t, p, k);
    }
  }

  lemma HandedOver(n: Net, t: nat, pcm: seq<Byte>)
    requires Inv(n) && !n.closing && IsPlaying(n, t) && n.tasks[t].st.phase.Synthesizing?
    ensures Carrying(Step(n, Synthesized(t, Some(pcm))), t, n.tasks[t].st.play, pcm)
  {
    var p := n.tasks[t].st.play;
    var audio := n.audio[(t, p) := pcm];
    assert WritesTrue(n.log, audio);
    SendNextCarries(n.(audio := audio), t, p, pcm, 0);
  }

  lemma OwnStepCarries(n: Net, e: Event, t: nat, p: nat, pcm: seq<Byte>)
    requires Inv(n) && !n.closing && Carrying(n, t, p, pcm) && Undisturbed(e, t)
    requires IsPlaying(n, t) && (e.Synthesized? || e.Resume?) && e.task == t
    ensures Carrying(Step(n, e), t, p, pcm)
  {
    var q := n.tasks[t].st.play;
    if q == p {
      if e.Resume? {
        SendNextCarries(n, t, p, pcm, n.tasks[t].st.phase.sent);
      }
    } else {
      StepGrows(n, e);
      WroteLastGrows(n.log, Step(n, e).log, t, p, ChunkCount(pcm));
      LaterPlay(n, e, t);
      EarlierAudio(n, e, t, p);
    }
  }

  /** A task's own events take it on, never back. */
  lemma LaterPlay(n: Net, e: Event, t: nat)
    requires IsPlaying(n, t) && (e.Synthesized? || e.Resume?) && e.task == t
    ensures var m := Step(n, e);
            && t < |m.tasks|
            && (m.tasks[t].st.Finished? || (m.tasks[t].st.Playing? && m.tasks[t].st.play >= n.tasks[t].st.play))
  {
  }

  /** The audio of other playbacks stays. */
  lemma EarlierAudio(n: Net, e: Event, t: nat, p: nat)
    requires IsPlaying(n, t) && p != n.tasks[t].st.play && (t, p) in n.audio
    ensures (t, p) in Step(n, e).audio && Step(n, e).audio[(t, p)] == n.audio[(t, p)]
  {
  }

  lemma CarryingStep(n: Net, e: Event, t: nat, p: nat, pcm: seq<Byte>)
    requires Inv(n) && !n.closing && Carrying(n, t, p, pcm) && Undisturbed(e, t)
    ensures Carrying(Step(n, e), t, p, pcm)
  {
    if (e.Synthesized? || e.Resume?) && e.task == t {
      if IsPlaying(n, t) {
        OwnStepCarries(n, e, t, p, pcm);
      }
    } else {
      OtherKeepsAudio(n, e, t);
      OtherKeepsTask(n, e, t);
      StepGrows(n, e);
      if WroteLast(n.log, t, p, ChunkCount(pcm)) {
        WroteLastGrows(n.log, Step(n, e).log, t, p, ChunkCount(pcm));
      }
    }
  }

  lemma {:induction false} CarryingRun(start: real, es: seq<Event>, k: nat, t: nat, p: nat, pcm: seq<Byte>)
    requires 0.0 <= start && k <= |es| && Carrying(Run(start, es[..k]), t, p, pcm) && !Run(start, es[..k]).closing
    requires forall i :: k <= i < |es| ==> Undisturbed(es[i], t)
    ensures Carrying(Run(start, es), t, p, pcm) && !Run(start, es).closing
    decreases |es|
  {
    if k == |es| {
      assert es[..k] == es;
    } else {
      var front := es[..|es| - 1];
      assert front[..k] == es[..k];
      CarryingRun(start, front, k, t, p, pcm);
      RunKeeps(start, front);
      CarryingNext(Run(start, front), es[|es| - 1], Run(start, es), t, p, pcm);
    }
  }

  lemma CarryingNext(n: Net, e: Event, m: Net, t: nat, p: nat, pcm: seq<Byte>)
    requires Inv(n) && !n.closing && Carrying(n, t, p, pcm) && Undisturbed(e, t) && m == Step(n, e)
    ensures Carrying(m, t, p, pcm) && !m.closing
  {
    CarryingStep(n, e, t, p, pcm);
    StaysOpen(n, e);
  }

  /**
   When synthesis hands a task the audio of its playback p, on an open socket, and then nothing ends
   the playback early, the socket has exactly the chunks of that audio, in one block, once the
   playback is over.
   */
  lemma {:induction false} SynthesizedAudioIsPlayed(
      start: real, es: seq<Event>, t: nat, pcm: seq<Byte>, rest: seq<Event>)
    returns (s: nat)
    requires 0.0 <= start && !Run(start, es).closing
    requires IsPlaying(Run(start, es), t) && Run(start, es).tasks[t].st.phase.Synthesizing?
    requires forall i :: 0 <= i < |rest| ==> Undisturbed(rest[i], t)
    requires Past(Run(start, es + [Synthesized(t, Some(pcm))] + rest), t, Run(start, es).tasks[t].st.play)
    ensures var n := Run(start, es + [Synthesized(t, Some(pcm))] + rest);
            var p, count := Run(start, es).tasks[t].st.play, ChunkCount(pcm);
            && s + count <= |n.log|
            && (forall i :: 0 <= i < |n.log| ==> (WrittenBy(n.log[i], t, p) <==> s <= i < s + count))
            && LogFrames(n.log)[s..s + count] == ChunkFrames(pcm, count)
            && ReadAll(n.socket).0 == LogFrames(n.log)
  {
    var e, p := Synthesized(t, Some(pcm)), Run(start, es).tasks[t].st.play;
    RunKeeps(start, es);
    HandedOver(Run(start, es), t, pcm);
    RunAppend(start, es, e);
    StaysOpen(Run(start, es), e);
    assert (es + [e] + rest)[..|es + [e]|] == es + [e];
    CarryingRun(start, es + [e] + rest, |es + [e]|, t, p, pcm);
    RunKeeps(start, es + [e] + rest);
    SocketIsWholeFrames(start, es + [e] + rest);
    var n := Run(start, es + [e] + rest);
    s := WholeBlock(n.log, n.audio, t, p);
  }

  // ----- how a job proceeds when it is let

  /** A transfer plays two lines, the other jobs one. */
  function PlayCount(j: Job): nat {
    if j.Transfer? then 2 else 1
  }

  /** Only the ordinary reply is played without the guard. */
  predicate Guarded(j: Job) {
    !j.Reply?
  }

  /** Task t holds the lock and is about to synthesize its playback p. */
  predicate Begun(n: Net, t: nat, p: nat) {
    && t < |n.tasks| && n.tasks[t].st == Playing(p, Synthesizing) && n.holder == Some(t)
    && (n.guard.speaking <==> Guarded(n.tasks[t].job))
  }

  /** After playback p the task begins the next, if there is one and the socket is open; else it is done. */
  predicate GoneOn(n: Net, m: Net, t: nat, p: nat) {
    && t < |n.tasks| == |m.tasks|
    && (forall u :: 0 <= u < |n.tasks| && u != t ==> m.tasks[u] == n.tasks[u])
    && m.tasks[t].job == n.tasks[t].job
    && (if p + 1 < PlayCount(n.tasks[t].job) && !n.closing then Begun(m, t, p + 1)
        else m.tasks[t].st == Finished && m.holder == None && !m.guard.speaking)
    && (Guarded(n.tasks[t].job) ==> m.guard.mutedUntil == n.now + 0.45)
  }

  /** A task that gets the free lock on an open socket begins its first playback; on a closing one it is done. */
  lemma AcquireBegins(n: Net, t: nat)
    requires Inv(n) && t < |n.tasks| && n.tasks[t].st.Waiting? && n.holder == None
    ensures var m := Step(n, Acquire(t));
            && m.socket == n.socket
            && (if n.closing then m.tasks[t].st == Finished && m.holder == None else Begun(m, t, 0))
            && forall u :: 0 <= u < |n.tasks| && u != t ==> m.tasks[u] == n.tasks[u]
  {
  }

  /** A synthesis that fails, a drain that fails and a closing socket write nothing, and the task goes on. */
  lemma EarlyEndGoesOn(n: Net, t: nat, e: Event)
    requires Inv(n) && IsPlaying(n, t)
    requires match n.tasks[t].st.phase
             case Synthesizing => e == Synthesized(t, None) || (n.closing && e.Synthesized? && e.task == t)
             case Streaming(_, _) => e == Resume(t, false) || (n.closing && e == Resume(t, true))
    ensures Step(n, e).socket == n.socket && GoneOn(n, Step(n, e), t, n.tasks[t].st.play)
  {
    EndPlayGoesOn(n, t, n.tasks[t].st.play);
    if e.Synthesized? && e.result.Some? {
      var audio := n.audio[(t, n.tasks[t].st.play) := e.result.value];
      EndPlayGoesOn(n.(audio := audio), t, n.tasks[t].st.play);
      assert Step(n, e) == EndPlay(n.(audio := audio), t, n.tasks[t].st.play);
    } else {
      assert Step(n, e) == EndPlay(n, t, n.tasks[t].st.play);
    }
  }

  lemma EndPlayGoesOn(n: Net, t: nat, p: nat)
    requires t < |n.tasks| && p < |Plays(n.tasks[t].job)| && n.holder == Some(t)
    requires n.guard.speaking <==> Plays(n.tasks[t].job)[p]
    ensures EndPlay(n, t, p).socket == n.socket && GoneOn(n, EndPlay(n, t, p), t, p)
  {
  }

  /** A task that is cancelled is done and writes nothing; if it was playing, the lock is free. */
  lemma CancelEnds(n: Net, t: nat)
    requires OnlyHolderPlays(n.tasks, n.holder) && t < |n.tasks| && (n.tasks[t].st.Playing? ==> IsPlaying(n, t))
    ensures var m := Step(n, Cancel(t));
            && m.socket == n.socket
            && m.tasks == n.tasks[t := n.tasks[t].(st := Finished)]
            && m.holder == (if n.tasks[t].st.Playing? then None else n.holder)
  {
  }

  /** A guarded playback that is cancelled leaves the guard silent, and muted for its tail. */
  lemma CancelStopsGuard(n: Net, t: nat)
    requires Inv(n) && IsPlaying(n, t)
    ensures var m := Step(n, Cancel(t));
            !m.guard.speaking && (Guarded(n.tasks[t].job) ==> m.guard.mutedUntil == n.now + 0.45)
  {
  }

  /** The audio arrives, and then the first j drains in a row succeed. */
  function LetRun(n: Net, t: nat, pcm: seq<Byte>, j: nat): Net {
    if j == 0 then Step(n, Synthesized(t, Some(pcm))) else Step(LetRun(n, t, pcm, j - 1), Resume(t, true))
  }

  /** Task t has sent j chunks of playback p and what was on the socket before is untouched. */
  ghost predicate Midway(n: Net, m: Net, t: nat, p: nat, pcm: seq<Byte>, j: nat) {
    && |m.tasks| == |n.tasks| && t < |n.tasks| && j <= ChunkCount(pcm)
    && m.tasks == n.tasks[t := n.tasks[t].(st := Playing(p, Streaming(pcm, j)))]
    && m.holder == n.holder && m.guard == n.guard && m.closing == n.closing && m.now == n.now
    && m.socket == n.socket + SentBytes(pcm, j)
  }

  lemma MidwayStep(n: Net, m: Net, t: nat, p: nat, pcm: seq<Byte>, j: nat)
    requires Midway(n, m, t, p, pcm, j) && p < |Plays(n.tasks[t].job)| && !n.closing && j < ChunkCount(pcm)
    ensures Midway(n, Step(m, Resume(t, true)), t, p, pcm, j + 1)
  {
    SentBytesGrow(n.socket, pcm, j);
  }

  lemma FirstChunk(n: Net, t: nat, pcm: seq<Byte>)
    requires IsPlaying(n, t) && n.tasks[t].st.phase.Synthesizing? && !n.closing && pcm != []
    ensures Midway(n, Step(n, Synthesized(t, Some(pcm))), t, n.tasks[t].st.play, pcm, 1)
  {
    assert SentBytes(pcm, 0) == [];
    SentBytesGrow(n.socket, pcm, 0);
  }

  lemma {:induction false} SoloChunks(n: Net, t: nat, pcm: seq<Byte>, j: nat)
    requires IsPlaying(n, t) && n.tasks[t].st.phase.Synthesizing? && !n.closing && j < ChunkCount(pcm)
    ensures Midway(n, LetRun(n, t, pcm, j), t, n.tasks[t].st.play, pcm, j + 1)
  {
    if j == 0 {
      FirstChunk(n, t, pcm);
    } else {
      SoloChunks(n, t, pcm, j - 1);
      MidwayStep(n, LetRun(n, t, pcm, j - 1), t, n.tasks[t].st.play, pcm, j);
    }
  }

  /**
   A playback that is let run: its audio arrives, every drain succeeds, and after the last one the
   socket has gained exactly the chunks of the audio and the task goes on.
   */
  lemma {:induction false} SoloPlayback(n: Net, t: nat, pcm: seq<Byte>)
    requires Inv(n) && IsPlaying(n, t) && n.tasks[t].st.phase.Synthesizing? && !n.closing
    ensures var m := LetRun(n, t, pcm, ChunkCount(pcm));
            m.socket == n.socket + SentBytes(pcm, ChunkCount(pcm)) && GoneOn(n, m, t, n.tasks[t].st.play)
  {
    var count := ChunkCount(pcm);
    if count == 0 {
      NoChunks(n, t, pcm);
    } else {
      SoloChunks(n, t, pcm, count - 1);
      MidwayEnds(n, LetRun(n, t, pcm, count - 1), t, pcm);
    }
  }

  lemma NoChunks(n: Net, t: nat, pcm: seq<Byte>)
    requires Inv(n) && IsPlaying(n, t) && n.tasks[t].st.phase.Synthesizing? && ChunkCount(pcm) == 0
    ensures var m := Step(n, Synthesized(t, Some(pcm)));
            m.socket == n.socket + SentBytes(pcm, 0) && GoneOn(n, m, t, n.tasks[t].st.play)
  {
    var audio := n.audio[(t, n.tasks[t].st.play) := pcm];
    assert SentBytes(pcm, 0) == [];
    EndPlayGoesOn(n.(audio := audio), t, n.tasks[t].st.play);
  }

  lemma MidwayEnds(n: Net, m: Net, t: nat, pcm: seq<Byte>)
    requires Inv(n) && IsPlaying(n, t) && !n.closing
    requires Midway(n, m, t, n.tasks[t].st.play, pcm, ChunkCount(pcm))
    ensures Step(m, Resume(t, true)).socket == m.socket && GoneOn(n, Step(m, Resume(t, true)), t, n.tasks[t].st.play)
  {
  }

  /** After a disconnection nothing more is written. */
  lemma {:induction false} ClosedStaysSilent(start: real, es: seq<Event>, rest: seq<Event>)
    requires Disconnect in es
    ensures Run(start, es + rest).closing && Run(start, es + rest).socket == Run(start, es).socket
  {
    if rest == [] {
      assert es + rest == es;
      DisconnectCloses(start, es);
    } else {
      var front, e := rest[..|rest| - 1], rest[|rest| - 1];
      ClosedStaysSilent(start, es, front);
      assert es + rest == (es + front) + [e];
      RunAppend(start, es + front, e);
      ClosedStep(Run(start, es + front), e);
    }
  }

  lemma ClosedStep(n: Net, e: Event)
    requires n.closing
    ensures Step(n, e).closing && Step(n, e).socket == n.socket
  {
  }

  /** The socket is found closing exactly after a disconnection. */
  lemma {:induction false} DisconnectCloses(start: real, es: seq<Event>)
    ensures Run(start, es).closing <==> Disconnect in es
  {
    if es != [] {
      var front, e := es[..|es| - 1], es[|es| - 1];
      assert es == front + [e];
      DisconnectCloses(start, front);
      if Run(start, front).closing {
        ClosedStep(Run(start, front), e);
      } else if e != Disconnect {
        StaysOpen(Run(start, front), e);
      }
    }
  }

  /** No other playback falls between a handoff line (playback 0) and its intro (playback 1). */
  lemma {:induction false} TransferUninterrupted(start: real, es: seq<Event>, t: nat, i: nat, m: nat, j: nat)
    requires 0.0 <= start && i <= m <= j < |Run(start, es).log|
    requires WrittenBy(Run(start, es).log[i], t, 0) && WrittenBy(Run(start, es).log[j], t, 1)
    ensures WrittenBy(Run(start, es).log[m], t, 0) || WrittenBy(Run(start, es).log[m], t, 1)
  {
    RunKeeps(start, es);
    TaskUninterrupted(Run(start, es).log, i, m, j);
  }

  /** The stream only ever grows: later events never take back or alter what was written. */
  lemma {:induction false} SocketGrows(start: real, es: seq<Event>, k: nat)
    requires k <= |es|
    ensures Run(start, es[..k]).socket <= Run(start, es).socket
    ensures Run(start, es[..k]).log <= Run(start, es).log
    decreases |es|
  {
    if k < |es| {
      var front := es[..|es| - 1];
      assert front[..k] == es[..k];
      SocketGrows(start, front, k);
      StepGrows(Run(start, front), es[|es| - 1]);
    } else {
      assert es[..k] == es;
    }
  }

  lemma StepGrows(n: Net, e: Event)
    ensures n.socket <= Step(n, e).socket && n.log <= Step(n, e).log
  {
    match e
    case Synthesized(t, result) =>
      if IsPlaying(n, t) && result.Some? {
        var p := n.tasks[t].st.play;
        SendNextGrows(n.(audio := n.audio[(t, p) := result.value]), t, p, result.value, 0);
      }
    case Resume(t, ok) =>
      if IsPlaying(n, t) && n.tasks[t].st.phase.Streaming? {
        SendNextGrows(n, t, n.tasks[t].st.play, n.tasks[t].st.phase.pcm, n.tasks[t].st.phase.sent);
      }
    case _ =>
  }

  lemma SendNextGrows(n: Net, t: nat, p: nat, pcm: seq<Byte>, k: nat)
    requires t < |n.tasks| && p < |Plays(n.tasks[t].job)|
    ensures n.socket <= SendNext(n, t, p, pcm, k).socket && n.log <= SendNext(n, t, p, pcm, k).log
  {
  }

  // ----- what it means for the caller's side

  /** A guarded playback is running: its task holds the lock and is inside it. */
  ghost predicate GuardedActive(n: Net) {
    exists t :: 0 <= t < |n.tasks| && IsPlaying(n, t) && Plays(n.tasks[t].job)[n.tasks[t].st.play]
  }

  lemma SpeakingMeaning(n: Net)
    requires Inv(n)
    ensures n.guard.speaking <==> GuardedActive(n)
  {
    if n.holder.Some? && n.guard.speaking {
      assert IsPlaying(n, n.holder.value);
    }
  }

  lemma MutedMeaning(n: Net)
    requires Inv(n)
    ensures IsMuted(n.guard, n.now) <==>
            || GuardedActive(n)
            || exists i :: 0 <= i < |n.ends| && n.now < n.ends[i] + TAIL_GUARD_SECS
  {
    SpeakingMeaning(n);
    assert n.guard.mutedUntil == LastEnd(n.ends);
    LastEndIsLatest(n.now, n.ends);
  }

  lemma LastEndIsLatest(now: real, ends: seq<real>)
    requires ClockOk(now, ends)
    ensures now < LastEnd(ends) <==> exists i :: 0 <= i < |ends| && now < ends[i] + TAIL_GUARD_SECS
  {
    if now < LastEnd(ends) {
      assert now < ends[|ends| - 1] + TAIL_GUARD_SECS;
    }
  }

  /** `speaking` holds exactly while a guarded playback is active, and there is at most one playback. */
  lemma {:induction false} SpeakingIsExact(start: real, es: seq<Event>)
    requires 0.0 <= start
    ensures var n := Run(start, es);
            && (n.guard.speaking <==> GuardedActive(n))
            && forall t, u | 0 <= t < |n.tasks| && 0 <= u < |n.tasks| ::
                 (n.tasks[t].st.Playing? && n.tasks[u].st.Playing? ==> t == u)
  {
    RunKeeps(start, es);
    SpeakingMeaning(Run(start, es));
  }

  /** Muted means: a guarded playback is active, or one ended less than 0.45 s ago. */
  lemma {:induction false} MutedIsExact(start: real, es: seq<Event>)
    requires 0.0 <= start
    ensures var n := Run(start, es);
            IsMuted(n.guard, n.now) <==>
            || GuardedActive(n)
            || exists i :: 0 <= i < |n.ends| && n.now < n.ends[i] + TAIL_GUARD_SECS
  {
    RunKeeps(start, es);
    MutedMeaning(Run(start, es));
  }

  /** From n to m the guard stops speaking only by recording the end of a guarded playback. */
  ghost predicate EndsRight(n: Net, m: Net) {
    || (m.ends == n.ends && (n.guard.speaking ==> m.guard.speaking))
    || (m.ends == n.ends + [n.now] && n.guard.speaking)
  }

  lemma EndPlayEnds(n: Net, t: nat, p: nat)
    requires t < |n.tasks| && p < |Plays(n.tasks[t].job)|
    requires n.guard.speaking <==> Plays(n.tasks[t].job)[p]
    ensures EndsRight(n, EndPlay(n, t, p))
  {
  }

  lemma SendNextEnds(n: Net, t: nat, p: nat, pcm: seq<Byte>, k: nat)
    requires t < |n.tasks| && p < |Plays(n.tasks[t].job)|
    requires n.guard.speaking <==> Plays(n.tasks[t].job)[p]
    ensures EndsRight(n, SendNext(n, t, p, pcm, k))
  {
    EndPlayEnds(n, t, p);
  }

  lemma StepEnds(n: Net, e: Event)
    requires Inv(n)
    ensures EndsRight(n, Step(n, e))
  {
    match e
    case Acquire(t) => AcquireEnds(n, t);
    case Synthesized(t, result) =>
      if IsPlaying(n, t) && n.tasks[t].st.phase.Synthesizing? {
        var p := n.tasks[t].st.play;
        match result
        case None => EndPlayEnds(n, t, p);
        case Some(pcm) => SendNextEnds(n.(audio := n.audio[(t, p) := pcm]), t, p, pcm, 0);
      }
    case Resume(t, ok) =>
      if IsPlaying(n, t) && n.tasks[t].st.phase.Streaming? {
        EndPlayEnds(n, t, n.tasks[t].st.play);
        SendNextEnds(n, t, n.tasks[t].st.play, n.tasks[t].st.phase.pcm, n.tasks[t].st.phase.sent);
      }
    case Cancel(t) => CancelStopsEnds(n, t);
    case _ =>
  }

  lemma AcquireEnds(n: Net, t: nat)
    requires Inv(n)
    ensures EndsRight(n, Step(n, Acquire(t)))
  {
  }

  lemma CancelStopsEnds(n: Net, t: nat)
    requires Inv(n)
    ensures EndsRight(n, Step(n, Cancel(t)))
  {
  }

  /** The times, from event to event, at which a guarded playback was active. */
  ghost function ActiveTimes(start: real, es: seq<Event>): seq<real> {
    var n := Run(start, es);
    (if es == [] then [] else ActiveTimes(start, es[..|es| - 1])) + if GuardedActive(n) then [n.now] else []
  }

  /** The last end is one of these times, and unless the guard speaks, none of them is later. */
  ghost predicate Recorded(times: seq<real>, ends: seq<real>, speaking: bool, now: real) {
    && (forall i :: 0 <= i < |times| ==> times[i] <= now)
    && (ends != [] ==> ends[|ends| - 1] in times && ends[|ends| - 1] <= now)
    && (speaking ==> now in times)
    && (!speaking ==> forall i :: 0 <= i < |times| ==> ends != [] && times[i] <= ends[|ends| - 1])
  }

  lemma RecordedNext(times: seq<real>, ends: seq<real>, speaking: bool, now: real,
                     ends': seq<real>, speaking': bool, now': real)
    requires Recorded(times, ends, speaking, now) && now <= now'
    requires (ends' == ends && (speaking ==> speaking')) || (ends' == ends + [now] && speaking && now' == now)
    ensures Recorded(times + if speaking' then [now'] else [], ends', speaking', now')
  {
    var times' := times + if speaking' then [now'] else [];
    assert forall x :: x in times ==> x in times';
    assert forall i :: 0 <= i < |times'| ==> times'[i] == if i < |times| then times[i] else now';
    assert speaking' ==> times'[|times|] == now';
    if ends' != ends {
      assert ends'[|ends'| - 1] == now;
    }
  }

  lemma TimeStep(n: Net, e: Event)
    ensures Step(n, e).now == if e.Advance? && e.dt >= 0.0 then n.now + e.dt else n.now
  {
  }

  lemma EndStep(n: Net, e: Event)
    requires Step(n, e).ends == n.ends + [n.now]
    ensures !e.Advance?
  {
    assert |Step(n, e).ends| == |n.ends| + 1;
  }

  lemma {:induction false} EndsAreActive(start: real, es: seq<Event>)
    requires 0.0 <= start
    ensures var n := Run(start, es);
            Recorded(ActiveTimes(start, es), n.ends, n.guard.speaking, n.now)
  {
    RunKeeps(start, es);
    SpeakingMeaning(Run(start, es));
    if es != [] {
      var front, e := es[..|es| - 1], es[|es| - 1];
      EndsAreActive(start, front);
      RunKeeps(start, front);
      RecordedStep(ActiveTimes(start, front), Run(start, front), e, Run(start, es));
    }
  }

  lemma RecordedStep(times: seq<real>, n: Net, e: Event, m: Net)
    requires Inv(n) && m == Step(n, e) && Recorded(times, n.ends, n.guard.speaking, n.now)
    ensures Recorded(times + if m.guard.speaking then [m.now] else [], m.ends, m.guard.speaking, m.now)
  {
    StepEnds(n, e);
    TimeStep(n, e);
    if m.ends == n.ends + [n.now] {
      EndStep(n, e);
    }
    RecordedNext(times, n.ends, n.guard.speaking, n.now, m.ends, m.guard.speaking, m.now);
  }

  /**
   In the history of the call itself: muted means that a guarded playback is active, or was less than
   0.45 s ago.
   */
  lemma {:induction false} MutedFromHistory(start: real, es: seq<Event>)
    requires 0.0 <= start
    ensures var n := Run(start, es);
            IsMuted(n.guard, n.now) <==>
            || GuardedActive(n)
            || exists time :: time in ActiveTimes(start, es) && n.now < time + 0.45
  {
    RunKeeps(start, es);
    var n := Run(start, es);
    SpeakingMeaning(n);
    EndsAreActive(start, es);
    MutedByEnds(n);
    LastDecides(ActiveTimes(start, es), n.ends, n.now);
  }

  lemma MutedByEnds(n: Net)
    requires Inv(n)
    ensures IsMuted(n.guard, n.now) <==> n.guard.speaking || (n.ends != [] && n.now < n.ends[|n.ends| - 1] + 0.45)
  {
  }

  lemma LastDecides(times: seq<real>, ends: seq<real>, now: real)
    ensures Recorded(times, ends, false, now) ==>
              ((ends != [] && now < ends[|ends| - 1] + 0.45) <==> exists time :: time in times && now < time + 0.45)
  {
  }

  /** A spawned task waits for the lock, behind nothing but it. */
  lemma SpawnWaits(n: Net, job: Job)
    ensures Step(n, Spawn(job)) == n.(tasks := n.tasks + [Task(job, Waiting)])
  {
  }

  /** No frame reaches the detector during a guarded playback or in the 0.45 s after one. */
  lemma {:induction false} HalfDuplex(start: real, es: seq<Event>, c: Call, i: Inbound)
    requires 0.0 <= start
    requires i.guard == Run(start, es).guard && i.now == Run(start, es).now
    requires Hears(c, i)
    ensures !GuardedActive(Run(start, es))
    ensures forall k :: 0 <= k < |Run(start, es).ends| ==>
              Run(start, es).now >= Run(start, es).ends[k] + TAIL_GUARD_SECS
  {
    MutedIsExact(start, es);
  }

  // ----- hangup

  ghost predicate AllFinished(tasks: seq<Task>) {
    forall t :: 0 <= t < |tasks| ==> tasks[t].st.Finished?
  }

  /** What goes on while the tasks of a call are being cancelled. */
  predicate Winding(e: Event) {
    e.Cancel? || e.Advance? || e.Disconnect?
  }

  lemma RunAppend(start: real, es: seq<Event>, e: Event)
    ensures Run(start, es + [e]) == Step(Run(start, es), e)
  {
    assert (es + [e])[..|es + [e]| - 1] == es;
  }

  /** What was cancelled has finished, and nothing is written. */
  ghost predicate WoundDown(n: Net, m: Net, cancels: seq<Event>) {
    && |m.tasks| == |n.tasks| && m.socket == n.socket
    && forall t :: 0 <= t < |n.tasks| && Cancel(t) in cancels ==> m.tasks[t].st.Finished?
  }

  lemma WindingStep(n: Net, m: Net, cancels: seq<Event>, e: Event)
    requires WoundDown(n, m, cancels) && Winding(e)
    ensures WoundDown(n, Step(m, e), cancels + [e])
  {
    if e.Cancel? && e.task < |m.tasks| {
      CancelEffect(m, e.task);
    }
  }

  lemma {:induction false} CancelledFinish(start: real, es: seq<Event>, cancels: seq<Event>)
    requires forall i :: 0 <= i < |cancels| ==> Winding(cancels[i])
    ensures WoundDown(Run(start, es), Run(start, es + cancels), cancels)
  {
    if cancels == [] {
      assert es + cancels == es;
    } else {
      var front, e := cancels[..|cancels| - 1], cancels[|cancels| - 1];
      CancelledFinish(start, es, front);
      assert es + cancels == (es + front) + [e] && cancels == front + [e];
      RunAppend(start, es + front, e);
      WindingStep(Run(start, es), Run(start, es + front), front, e);
    }
  }

  /**
   Once every task of the call has been cancelled, in any order, nothing plays, the lock is free,
   the guard is silent and the stream is as it was.
   */
  lemma {:induction false} HangupSilences(start: real, es: seq<Event>, cancels: seq<Event>)
    requires 0.0 <= start && forall i :: 0 <= i < |cancels| ==> Winding(cancels[i])
    requires forall t :: 0 <= t < |Run(start, es).tasks| ==> Cancel(t) in cancels
    ensures var m := Run(start, es + cancels);
            m.holder == None && !m.guard.speaking && m.socket == Run(start, es).socket
  {
    CancelledFinish(start, es, cancels);
    RunKeeps(start, es + cancels);
    AllFinishedQuiet(Run(start, es + cancels));
  }

  lemma AllFinishedQuiet(n: Net)
    requires Inv(n) && AllFinished(n.tasks)
    ensures n.holder == None && !n.guard.speaking
  {
  }

  lemma CancelEffect(n: Net, t: nat)
    requires t < |n.tasks|
    ensures var m := Step(n, Cancel(t));
            m.tasks == n.tasks[t := n.tasks[t].(st := Finished)] && m.socket == n.socket
  {
  }

  // ----- the chunk loop itself

  /** How the transport behaves during one playback, chunk by chunk. */
  datatype Transport = Transport(closes: nat -> bool, drains: nat -> bool)

  /** The loop can pass chunk i. */
  predicate Passes(tr: Transport, i: nat) {
    !tr.closes(i) && tr.drains(i)
  }

  method SendChunk(writer: StreamWriter, pcm: seq<Byte>, k: nat, drains: bool) returns (ok: bool)
    requires !writer.closing && k * FRAME_BYTES < |pcm|
    modifies writer`written
    ensures writer.written == old(writer.written) + Pack(Frame(KIND_AUDIO, Chunk(pcm, k)))
    ensures ok == drains
  {
    var start := k * FRAME_BYTES;
    var chunk := pcm[start..if start + FRAME_BYTES <= |pcm| then start + FRAME_BYTES else |pcm|];
    if |chunk| < FRAME_BYTES {
      chunk := chunk + Zeros(FRAME_BYTES - |chunk|);
    }
    assert chunk == Chunk(pcm, k);
    var sent := writer.WriteFrame(KIND_AUDIO, chunk, drains);
    ok := sent.Ok?;
  }

  /** The bytes of the first n chunks on the wire. */
  function SentBytes(pcm: seq<Byte>, n: nat): seq<Byte>
    requires n <= ChunkCount(pcm)
  {
    PackAll(ChunkFrames(pcm, n))
  }

  lemma SentBytesGrow(base: seq<Byte>, pcm: seq<Byte>, n: nat)
    requires n * FRAME_BYTES < |pcm|
    ensures n < ChunkCount(pcm)
    ensures base + SentBytes(pcm, n + 1) == base + SentBytes(pcm, n) + Pack(Frame(KIND_AUDIO, Chunk(pcm, n)))
  {
    var f := Frame(KIND_AUDIO, Chunk(pcm, n));
    assert ChunkFrames(pcm, n + 1) == ChunkFrames(pcm, n) + [f];
    PackAllAppend(ChunkFrames(pcm, n), [f]);
    PackOne(f);
    AppendAssociates(base, SentBytes(pcm, n), Pack(f));
  }

  lemma PackOne(f: Frame)
    requires Sendable(f)
    ensures PackAll([f]) == Pack(f)
  {
    assert [f][1..] == [];
  }

  /** The transport stopped the loop after `sent` chunks: found closing, or failed to drain. */
  predicate StoppedAt(tr: Transport, pcm: seq<Byte>, sent: nat) {
    (sent < ChunkCount(pcm) && tr.closes(sent)) || (sent > 0 && !tr.drains(sent - 1))
  }

  ghost predicate PassedTo(tr: Transport, n: int) {
    forall i :: 0 <= i < n ==> Passes(tr, i)
  }

  /** The chunk loop: it sends a prefix of the chunks and stops early only at a failing transport. */
  method StreamChunks(writer: StreamWriter, pcm: seq<Byte>, tr: Transport) returns (sent: nat)
    requires !writer.closing
    modifies writer
    ensures sent <= ChunkCount(pcm)
    ensures writer.written == old(writer.written) + SentBytes(pcm, sent)
    ensures PassedTo(tr, sent - 1)
    ensures sent < ChunkCount(pcm) ==> StoppedAt(tr, pcm, sent)
  {
    sent := 0;
    var ok := true;
    while ok && sent * FRAME_BYTES < |pcm|
      invariant sent <= ChunkCount(pcm)
      invariant ok ==> !writer.closing && PassedTo(tr, sent)
      invariant writer.written == old(writer.written) + SentBytes(pcm, sent)
      invariant PassedTo(tr, sent - 1)
      invariant !ok ==> StoppedAt(tr, pcm, sent)
      decreases ok, |pcm| - sent * FRAME_BYTES
    {
      SentBytesGrow(old(writer.written), pcm, sent);
      if tr.closes(sent) {
        writer.closing := true;
        ok := false;
      } else {
        ok := SendChunk(writer, pcm, sent, tr.drains(sent));
        sent := sent + 1;
      }
    }
  }

  /**
   One playback: speech synthesis yields audio or fails, and the guard, if any, brackets the whole.
   The transport may be found closing before a chunk and may fail to drain after one.
   */
  method PlayText(writer: StreamWriter, synthesis: Option<seq<Byte>>, guard: DuplexGuard?,
                  tr: Transport, endTime: real)
    returns (sent: nat)
    modifies writer, guard
    ensures old(writer.closing) || synthesis.None? ==> sent == 0 && writer.written == old(writer.written)
    ensures !old(writer.closing) && synthesis.Some? ==>
              && sent <= ChunkCount(synthesis.value)
              && writer.written == old(writer.written) + SentBytes(synthesis.value, sent)
              && PassedTo(tr, sent - 1)
              && (sent < ChunkCount(synthesis.value) ==> StoppedAt(tr, synthesis.value, sent))
    ensures guard != null ==>
              guard.State() == if old(writer.closing) then old(guard.State()) else Stopped(old(guard.State()), endTime)
  {
    sent := 0;
    if writer.closing {
      return;
    }
    if guard != null {
      guard.Start();
    }
    if synthesis.Some? {
      sent := StreamChunks(writer, synthesis.value, tr);
    }
    if guard != null {
      guard.Stop(endTime);
    }
  }
}
