# Verified models of the workforce platform's state machines

The platform is mostly glue around language models, speech services and SQL, but its correctness
hangs on a handful of hand-written state machines and concurrent protocols. This project models
those and proves what they keep over every run: the telephony audio bridge, the branding cache, the
event bus, the knowledge index, the conversation memory, sessions and lockout, tool names, retrieval
and the incident detector.

## How the models are built

One module per component. Where several tasks share state, a module has

- an immutable state (`Net`, `Sys`), an `Event` per stretch of code between two awaits that really
  suspend, a total `Step` (an event that is not enabled changes nothing) and runs over arbitrary
  sequences of events, so every schedule is covered;
- an invariant kept by every step, and theorems over every run read off it;
- history variables (`log`, `loads`, `commits`, `bumps`, `taken`), which record what happened and
  decide nothing.

Where the source updates objects in place there are classes with the source's fields. Their methods
are proved to do exactly what `Step` or another specification function says, and the theorems are
about those functions. Speech synthesis, transcription, language models, SQL rows and the clock enter
as arbitrary values.

| module | component |
|---|---|
| `FrameCodec` | AudioSocket frames over asyncio streams |
| `VoiceActivity` | the energy detector with hangover and adaptive noise floor |
| `Duplex` | the half-duplex guard |
| `CallSegmentation` | the frame loop that cuts the caller's audio into utterances |
| `CallPlayback` | playback tasks sharing one socket under a lock, until hangup |
| `CompanyCache` | the branding cache: TTL, per-tenant lock, double check |
| `BroadcastBus` | publish/subscribe over bounded queues, and the loop that drains them |
| `KnowledgeIndex` | document rows, vectors and background embeds |
| `ChatMemory` | the trimmed message log and department stickiness |
| `KbRetrieval` | ranking, deduplicating and capping of knowledge snippets |
| `TokenSessions` | token versions over logins, refresh chains and revocations |
| `LoginLockout` | the failed-login counter and its lock |
| `HealthMonitor` | the incident edge detector |
| `ToolNames` | printing and parsing tool names, and the connector registry |
| `Departments`, `Wrappers` | the departments; `Option` and `Result` |

## What the code does not do

Five expectations are false of the code as written. Each has an input that breaks it and the exact
condition under which it holds.

- **A saved setting is visible at once** (`app/db/crud.py:662` says the save invalidates the cache).
  It invalidates before the caller commits, so a reader in between re-caches the old row for the TTL
  (`CompanyCache.StaleAfterSave`); and a database read that fails is cached as the configuration
  fallback, which hides even a save that came first (`CompanyCache.FailedReadHidesSave`). Everything
  returned after a commit is the value of a direct load at that commit or a later one, *or the fallback
  of a failed read*, iff at the commit the tenant's fresh entry and its loads in flight that have
  already read hold the saved row's value or a failed read (`CompanyCache.SaveVisibleIff`). Everything
  returned was read after the commit iff there is no such entry or load (`CompanyCache.ReadAfterSaveIffClean`).
- **Sign-out everywhere ends every older session** (`app/api/routes/auth.py:421-423`). The new version
  is the one read plus one, so two overlapping requests of one user can lose an increment, or set the
  version back, and a bump that is in flight when another commits may itself commit long after. Assume
  that bumps of the user begun *after* a commit have no other of that user between their read and their
  commit (without that, some run from any state revives a revoked token:
  `TokenSessions.OverlapAlwaysRevives`). Then a commit revokes the user's sessions for good iff every
  unexpired token of the user has at most the version that was read, every signature under way at most
  the one after it, and no other bump of the user is in flight (`TokenSessions.BumpRevokesForGoodIff`,
  after any run and whatever other users do). If one assumes the same of the bumps in flight, the last
  condition falls away (`TokenSessions.BumpRevokesIff`, after any run; the other users' tokens must be
  safe too). If bumps have not overlapped before either, a commit with no other in between always keeps
  the promise (`TokenSessions.FirstOverlapRevokesIff`), and for a user with a live session only such a
  commit does (`TokenSessions.BumpRevokesIffSerial`).
- **A document's vector is its text.** Embeds of one document may finish in the wrong order,
  and an edit may roll back after its embed has written (`KnowledgeIndex.OverlapGoesStale`,
  `KnowledgeIndex.RollbackGoesStale`); an edit whose upsert fails rests as `indexed` with the old vector
  (`KnowledgeIndex.FailedUpsertGoesStale`). Call a continuation orderly if embeds of the document do not
  overlap from then on, none of its edits rolls back and its vector is not taken away. From any state,
  all orderly continuations agree iff the document agrees now and every embed in flight carries or has
  written the text it has or is about to have (`KnowledgeIndex.AgreementIffCoherent`). What to check
  before each step that can break it: before an edit, that no embed in flight will write, or has just
  written, another text than the new one (`KnowledgeIndex.EditSafeIff`); before a rollback, the same of the
  committed text, and that a complete row has its vector (`KnowledgeIndex.RollbackSafeIff`); before a
  reindex, the same as before a rollback if no edit is open, and otherwise that no embed in flight will
  write, or has just written, another text than the committed one and that the edit is to that text
  (`KnowledgeIndex.ReindexSafeIff`). Whatever its status, a document at rest after an orderly run has the vector of its text unless its latest embed
  was taken away, by an upsert that failed for good or by being killed, while the vector had another
  text or none (`KnowledgeIndex.RestAgreesIff`). The status does not tell: a product whose embed ends
  before its creation commits rests as `pending` with the right vector
  (`KnowledgeIndex.EarlyEmbedStaysPending`).
- **A lock lasts fifteen minutes** (`app/api/routes/auth.py:24-25`). The remaining time is truncated to
  whole seconds, so it stops turning attempts away just after 899 s (`LoginLockout.LockedIff`).
- **One alert per outage.** The remembered state expires after an hour; a later check of a service that
  is still down alerts again, and one that finds it recovered does not say so. An alert is right iff the
  check is in time or the service was healthy before (`HealthMonitor.RightIffRemembered`).

Two more facts are modelled as written: the ordinary reply is played without the guard
(`app/voice/audiosocket_server.py:325`), so the mute theorems speak of guarded playbacks; and a connector
name that contains `__` or ends in `_` is routed to the wrong connector (`ToolNames.ParseUndoesPrint`).

## Model

| member | source | states |
|---|---|---|
| FrameCodec.ReadOneOfPacked | app/voice/audiosocket_server.py:52-63 | reading a written frame, whatever follows it, gives back that frame and leaves exactly what follows |
| FrameCodec.WireFormat | app/voice/audiosocket_server.py:53-63 | a frame is its kind, its length with the high byte first, and its payload, both written and read |
| FrameCodec.RoundTrip | app/voice/audiosocket_server.py:52-64 | any list of frames with byte kinds and payloads below 65536 bytes is read back from its concatenated writes, with nothing left over |
| FrameCodec.ReadAllLosesNothing | app/voice/audiosocket_server.py:356-360 | for arbitrary bytes, rewriting the frames read and appending the leftover gives the bytes received, and no further frame is in the leftover |
| FrameCodec.PrefixRead | app/voice/audiosocket_server.py:356-360 | a stream cut at any byte yields exactly the maximal prefix of whole frames |
| FrameCodec.WholeFramesUnique | app/voice/audiosocket_server.py:356-360 | the number of whole frames before a cut is determined, so the maximal prefix is unique |
| FrameCodec.StreamReader.ReadExactly | app/voice/audiosocket_server.py:53 | n bytes are taken off the front, or the stream is exhausted and the read fails |
| FrameCodec.StreamReader.ReadFrame | app/voice/audiosocket_server.py:52-57 | the two or one exact reads amount to decoding the first frame; an incomplete one raises |
| FrameCodec.StreamWriter.WriteFrame | app/voice/audiosocket_server.py:60-64 | closing transports, kinds outside a byte and payloads that do not fit raise and append nothing; otherwise the whole frame is appended, and the call raises iff the drain does |
| VoiceActivity.HangoverMeaning | app/voice/vad.py:91-96 | the hangover counter is exactly the window left since the last frame at or above the threshold, zero if none is in the window |
| VoiceActivity.SpeechIsWindow | app/voice/vad.py:88-103 | frame i is speech iff some frame in [i - hangover, i] was at or above the threshold against the floor in force at that frame |
| VoiceActivity.FrameSpeechIsWindow | app/voice/vad.py:62-69 | the same for byte frames: never for fewer than two bytes, and the window counts only frames of at least two |
| VoiceActivity.ShortFramesInvisible | app/voice/vad.py:64-65 | the detector's state after any frames is its state after just those of at least two bytes |
| VoiceActivity.FloorMovesOnNonSpeech | app/voice/vad.py:91-103 | the floor changes at a frame iff the frame is non-speech and its energy differs from the floor |
| VoiceActivity.FloorClosedForm | app/voice/vad.py:57-103 | after any run the floor is a^n * (-60) plus the weighted sum of the n non-speech energies |
| VoiceActivity.FloorBounded | app/voice/vad.py:97-103 | the floor stays between any bounds of -60 and the non-speech energies |
| VoiceActivity.FloorRisesSlowly | app/voice/vad.py:88-103 | a non-speech frame raises the floor by less than (1 - a) * speech_ratio_db |
| VoiceActivity.FloorConverges | app/voice/vad.py:97-103 | with the hangover drained, n frames of one sub-threshold energy all stay non-speech and multiply the floor's distance to it by a^n |
| VoiceActivity.Unpack | app/voice/vad.py:67-68 | sample i is the signed little-endian value of bytes 2i and 2i+1, an odd last byte ignored |
| VoiceActivity.EnergyVad.ProcessPcm16Bytes | app/voice/vad.py:62-69 | verdict, new state and reported levels of a byte frame, short ones included |
| VoiceActivity.EnergyVad.ProcessSamples | app/voice/vad.py:80-110 | verdict, new floor and hangover, and reported levels of a frame of samples |
| VoiceActivity.EnergyVad.Reset | app/voice/vad.py:74-76 | the detector is as new |
| Duplex.DuplexGuard.Start | app/voice/audiosocket_server.py:89-90 | the guard speaks; the end of the mute is untouched |
| Duplex.DuplexGuard.Stop | app/voice/audiosocket_server.py:92-94 | the guard is silent and muted for another 0.45 s |
| CallSegmentation.StateMeaning | app/voice/audiosocket_server.py:362-378 | the call has ended iff a hangup, or an identifier whose session failed to open, came before; its session is open iff one opened before any end |
| CallSegmentation.HeardMeaning | app/voice/audiosocket_server.py:380-390 | a frame reaches the detector iff it is audio, a session opened before, no end came before and the guard is not muted, all read off the frames |
| CallSegmentation.BufferInvariant | app/voice/audiosocket_server.py:380-414 | between frames an utterance is in progress iff the buffer is non-empty, and the buffer is below 128000 bytes |
| CallSegmentation.AudioConserved | app/voice/audiosocket_server.py:380-414 | the spawned utterances followed by the buffer are, in order, the payloads of exactly the audio frames that came after a session opened and before any end, unmuted, and were speech or inside an utterance, whatever the detector |
| CallSegmentation.CutReasons | app/voice/audiosocket_server.py:400-414 | a frame spawns at most one utterance, of at most 127999 + 65535 bytes, cut for being full or for having more than 1600 bytes at least a second after the last speech frame |
| CallSegmentation.CutsWhenDue | app/voice/audiosocket_server.py:400-414 | conversely, whenever one of the two reasons applies, the whole buffer is spawned and emptied |
| CallSegmentation.LastSpeechMeaning | app/voice/audiosocket_server.py:394-397 | the silence clock runs from the last speech frame of the run, or from the start of the call |
| CallSegmentation.DetectorSeesHeard | app/voice/audiosocket_server.py:381-392 | muted frames, other kinds and frames before a session leave no trace in the detector |
| CallSegmentation.SpokenIsWindow | app/voice/audiosocket_server.py:389-397 | a heard frame is speech iff the sliding window over the heard frames holds an energetic one |
| CallSegmentation.EndedStays | app/voice/audiosocket_server.py:362-378 | after a hangup frame or a failed session opening nothing more is processed |
| CallSegmentation.CallLoop.Spawn | app/voice/audiosocket_server.py:401-406 | the buffer is handed over whole, cleared, and the utterance ends |
| CallSegmentation.CallLoop.OnAudio | app/voice/audiosocket_server.py:392-414 | the audio branch has the state and spawns of its specification |
| CallSegmentation.CallLoop.OnFrame | app/voice/audiosocket_server.py:362-417 | so has the dispatch on the frame kind |
| CallSegmentation.CallLoop.Serve | app/voice/audiosocket_server.py:355-417 | serving a byte stream has the state and the utterances of the run over all frames decoded from it |
| CallPlayback.ChunksCarryAudio | app/voice/audiosocket_server.py:119-124 | the first n chunks carry the first 320n bytes of the audio, or all of it and less than one frame of silence |
| CallPlayback.AllChunksCarryAll | app/voice/audiosocket_server.py:119-124 | all the chunks together carry all of the audio and less than one frame of silence |
| CallPlayback.AcquireBegins | app/voice/audiosocket_server.py:298-304 | a task that gets the free lock begins its first playback, guarded unless it is an ordinary reply; on a closing socket it is done |
| CallPlayback.SynthesizedAudioIsPlayed | app/voice/audiosocket_server.py:107-129 | when a task is handed audio on an open socket and nothing ends the playback early, the socket has exactly the chunks of that audio, in one block, once the playback is over |
| CallPlayback.SoloPlayback | app/voice/audiosocket_server.py:104-132 | a playback whose drains all succeed adds exactly the chunks of its audio to the socket, and the task goes on to its second line if it is a transfer, else it is done; a guarded one leaves the mute tail |
| CallPlayback.EarlyEndGoesOn | app/voice/audiosocket_server.py:107-132 | failed synthesis, a failed drain and a closing socket end the playback without writing, and the task goes on in the same way |
| CallPlayback.CancelEnds | app/voice/audiosocket_server.py:426-429 | a cancelled task is done and writes nothing, and gives up the lock if it was playing |
| CallPlayback.ClosedStaysSilent | app/voice/audiosocket_server.py:61-62 | after a disconnection nothing more is ever written |
| CallPlayback.RunKeeps | app/voice/audiosocket_server.py:97-325 | in every schedule: only the lock holder plays, every write is the chunk it claims to be, writes of a task are uninterrupted, and the guard is on exactly inside a guarded playback |
| CallPlayback.SocketIsWholeFrames | app/voice/audiosocket_server.py:60-64 | at every moment of every schedule the peer decodes whole 0x10 frames of 320 bytes and nothing else |
| CallPlayback.TaskUninterrupted | app/voice/audiosocket_server.py:319-325 | between two writes of one task lie only writes of that task, in playback and chunk order |
| CallPlayback.EveryPlaybackIsABlock | app/voice/audiosocket_server.py:97-132 | in every schedule the frames of a playback are one contiguous block of the stream, and that block is a prefix of its chunked audio |
| CallPlayback.UndisturbedPlaybackIsWhole | app/voice/audiosocket_server.py:119-129 | a playback that is over, in a schedule without hangup, cancellation of its task or failed drain of it, has all of its chunks on the socket, in one block |
| CallPlayback.TransferUninterrupted | app/voice/audiosocket_server.py:298-307 | no other playback falls between a handoff line and the new department's intro |
| CallPlayback.SocketGrows | app/voice/audiosocket_server.py:63 | what was written is never taken back or altered |
| CallPlayback.SpeakingIsExact | app/voice/audiosocket_server.py:104-132 | `speaking` holds exactly while a guarded playback is active, and at most one playback is |
| CallPlayback.MutedIsExact | app/voice/audiosocket_server.py:86-94 | muted iff a guarded playback is active or one ended less than 0.45 s ago |
| CallPlayback.MutedFromHistory | app/voice/audiosocket_server.py:86-94 | in every schedule, muted iff a guarded playback is active or was active less than 0.45 s ago |
| CallPlayback.HalfDuplex | app/voice/audiosocket_server.py:385-392 | an inbound frame that reaches the detector comes during no guarded playback and at least 0.45 s after each that ended |
| CallPlayback.HangupSilences | app/voice/audiosocket_server.py:421-429 | cancelling the tasks of a call, at any moment and in any order, frees the lock, silences the guard and writes nothing |
| CallPlayback.SendChunk | app/voice/audiosocket_server.py:122-126 | one slice goes out as one frame, padded to 320 bytes, whether or not the drain then fails |
| CallPlayback.StreamChunks | app/voice/audiosocket_server.py:119-129 | the chunk loop sends a prefix of the chunks and stops early only at a closing or failing transport |
| CallPlayback.PlayText | app/voice/audiosocket_server.py:97-132 | failed synthesis and a closing transport send nothing, otherwise a prefix of the audio goes out; the guard is released however the playback ends |
| CompanyCache.FromRowMeaning | app/core/company.py:82-96 | each field of the row shows as itself, an empty text as the configured one; without a row the configuration shows |
| CompanyCache.SoloLoad | app/core/company.py:55-70 | without a fresh entry and with the lock free, a reader gets what the database has (or the fallback of a failed read), and it is cached from then |
| CompanyCache.FreshEntryIsReturned | app/core/company.py:57-59 | an entry younger than TTL is returned at once and nothing else changes |
| CompanyCache.WaiterShares | app/core/company.py:62-66 | a reader that waited for the lock gets what the load before it stored and does not load |
| CompanyCache.InvalidationEmpties | app/core/company.py:42-44 | an invalidation leaves the tenant without an entry and no other entry, reader or load changed |
| CompanyCache.BoundedStaleness | app/core/company.py:34-96 | a value returned at t came from a load that read after t - TTL - (its duration); with no commit to the tenant in that window it is what a direct load at t gives (the commits it counts are those up to t), or the fallback of a failed read |
| CompanyCache.OneLoadInFlight | app/core/company.py:61-70 | at most one load per tenant is ever in flight |
| CompanyCache.LoadsAreSpaced | app/core/company.py:55-70 | absent an invalidation of the tenant, a load starts no earlier than TTL after any earlier load's store |
| CompanyCache.SaveVisibleIff | app/db/crud.py:663-680 | in every continuation every value returned after a commit is that of a direct load at it or later, or the fallback of a failed read, iff at the commit the fresh entry and the loads in flight that have read hold the saved row's value or a failed read |
| CompanyCache.ReadAfterSaveIffClean | app/db/crud.py:663-680 | in every continuation everything returned after a commit was read after it, iff at the commit the tenant has no fresh entry and no load that has already read |
| CompanyCache.CleanSaveIsVisible | app/db/crud.py:663-680 | with no such entry or load every value returned after a commit is that of a direct load at it or later, or the fallback of a failed read |
| CompanyCache.FailedReadHidesSave | app/core/company.py:89-96 | a run in which the only save precedes every reader, and a failed read makes later readers get the fallback although a direct load gives the saved row |
| CompanyCache.StaleAfterSave | app/db/crud.py:672-680 | a reader between the invalidation and the commit makes a later reader get the old row although a direct load gives the new one |
| CompanyCache.BrandingStore.InvalidateCompanyCache | app/core/company.py:42-44 | the tenant has no fresh entry at any time; other tenants keep theirs |
| CompanyCache.BrandingStore.GetCachedBrandingSync | app/core/company.py:34-52 | the entry is returned iff it is fresh |
| CompanyCache.BrandingStore.StoreLoaded | app/core/company.py:68-70 | the stored value is fresh for exactly TTL from the store |
| BroadcastBus.OrderedSubsequence | app/core/broadcast.py:31-56 | in every run, what a subscriber consumed followed by its queue is a strictly ordered subsequence of its channel's publications since it subscribed, and the queue keeps its bound |
| BroadcastBus.DroppedOnlyWhenFull | app/core/broadcast.py:33-39 | a publication is among what a subscriber ever gets iff the subscription was active on its channel and its queue had room at that moment |
| BroadcastBus.SubscriberMeaning | app/core/broadcast.py:41-56 | the k-th subscriber of a run has the channel and size it asked for, counts publications from then on, and is active until unsubscribed |
| BroadcastBus.TakeGivesOldest | app/core/broadcast.py:50 | taking gives the oldest waiting publication and touches no other subscriber |
| BroadcastBus.CommonOrder | app/core/broadcast.py:31-39 | two subscribers see the publications they have in common in the same order |
| BroadcastBus.WithoutMeaning | app/core/broadcast.py:53-56 | removing a queue takes out that queue and no other |
| BroadcastBus.AsyncQueue.PutNowait | app/core/broadcast.py:36-39 | an item is appended iff the queue is not full, and dropped otherwise |
| BroadcastBus.AsyncQueue.GetNowait | app/api/ws/events_ws.py:77-81 | the head is taken off, if there is one |
| BroadcastBus.Bus.Publish | app/core/broadcast.py:31-39 | every queue of the channel is offered the payload once; all other queues are untouched |
| BroadcastBus.Bus.Subscribe | app/core/broadcast.py:41-48 | a new empty queue is appended to the channel's list |
| BroadcastBus.Bus.Unsubscribe | app/core/broadcast.py:51-56 | the queue is off the channel's list, which is otherwise unchanged |
| BroadcastBus.RoundSends | app/api/ws/events_ws.py:76-81 | the messages of a round come from exactly the queues that are not empty at their turn, in list order, one each: the oldest payload under its channel |
| BroadcastBus.OldestComesFirst | app/api/ws/events_ws.py:76-79 | a queue with something in it before the round has that first at its turn, so that is what it sends |
| BroadcastBus.RoundLosesNothing | app/api/ws/events_ws.py:76-81 | whatever is published while a round sends, what each queue held before is in the messages sent or still queued, in order |
| BroadcastBus.ArriveFits | app/core/broadcast.py:35-39 | a queue with room for what is published meanwhile gets exactly that, in order |
| BroadcastBus.TakeHead | app/api/ws/events_ws.py:77-78 | one queue gives up its head, the others are untouched |
| BroadcastBus.PollRound | app/api/ws/events_ws.py:73-82 | a round takes the head of each queue that is non-empty at its turn, in the order of the list, publications arriving during each send included |
| KnowledgeIndex.CommitMeaning | app/api/routes/products.py:166-172 | a commit puts the draft in place of the row: a new one pending, a rewritten one indexed |
| KnowledgeIndex.CelerySteps | app/workers/tasks.py:123-153 | a failing upsert of the Celery task is tried again, a failing status update let go, and neither marks the document failed |
| KnowledgeIndex.FailedFromPending | app/api/routes/knowledge.py:515-532 | a document becomes failed only from pending, by the failure handler of a local embed of it |
| KnowledgeIndex.OpenEditBlocks | app/api/routes/products.py:165-174 | while an edit of the row is open, the status update of an embed waits |
| KnowledgeIndex.VectorTakenAway | app/api/routes/knowledge.py:359-366 | recreating the collection, and beginning a deletion, each leave a complete document without its vector |
| KnowledgeIndex.NeverDowngraded | app/api/routes/knowledge.py:515-532 | in every run, a document once indexed or complete stays so as long as it has a row |
| KnowledgeIndex.CompleteHasVector | app/api/routes/knowledge.py:488-511 | in every run without a recreated collection, a complete document not being deleted has a vector |
| KnowledgeIndex.OrderlyRunsAgree | app/api/routes/knowledge.py:478-532 | if embeds of a document do not overlap and no edit of it rolls back, its vector is the embedding of its text whenever it is complete |
| KnowledgeIndex.CoherentRun | app/api/routes/products.py:150-188 | the agreement of row, vector and embeds in flight is kept by every orderly run from any state |
| KnowledgeIndex.AgreementIffCoherent | app/api/routes/products.py:166-186 | from any state, agreement in every orderly continuation holds iff the document agrees now and every embed in flight carries or wrote the text the document has or will have |
| KnowledgeIndex.EditSafeIff | app/api/routes/products.py:165-186 | an edit keeps agreement in every orderly continuation iff no embed in flight will write, or has just written, another text |
| KnowledgeIndex.RollbackSafeIff | app/api/routes/products.py:165-186 | a rollback does iff a complete row has its vector and no embed in flight will write, or has just written, another text than the row's; a product whose creation is rolled back has nothing to disagree with |
| KnowledgeIndex.ReindexSafeIff | app/api/routes/knowledge.py:276-288 | a reindex does iff no embed in flight will write, or has just written, another text than the row's, and either no edit is open and a complete row has its vector, or the open edit is to the row's text |
| KnowledgeIndex.RestAgreesIff | app/api/routes/knowledge.py:478-532 | after an orderly run a document with no embed in flight and no edit open has the vector of its text, whatever its status, iff its latest embed was not taken away while the vector had another text |
| KnowledgeIndex.UnharmedRestAgrees | app/api/routes/knowledge.py:478-532 | in particular when no upsert of the document fails for good and none of its embeds is killed before it wrote |
| KnowledgeIndex.FailedUpsertGoesStale | app/api/routes/knowledge.py:515-532 | a run in which an edit's upsert fails: at rest as indexed, with the vector of the old text |
| KnowledgeIndex.EarlyEmbedStaysPending | app/api/routes/products.py:174-186 | a run in which a product's embed ends before its creation commits: at rest as pending, with its vector |
| KnowledgeIndex.OverlapGoesStale | app/api/routes/products.py:165-186 | a run in which two embeds of one product finish in the wrong order: complete, with the vector of the old text |
| KnowledgeIndex.RollbackGoesStale | app/api/routes/products.py:174-186 | a run in which an edit rolls back after its embed wrote: complete, with the vector of a text never committed |
| KnowledgeIndex.KnowledgeBase.UploadDocument | app/api/routes/knowledge.py:86-141 | oversized and blank uploads are refused without effect; otherwise the row is indexed and one embed is spawned |
| KnowledgeIndex.KnowledgeBase.SyncKbEntry | app/api/routes/products.py:150-188 | an existing entry is rewritten, a missing one created, either way uncommitted and with one forced embed of the new text |
| KnowledgeIndex.KnowledgeBase.EmbedDocument | app/api/routes/knowledge.py:488-532 | an undisturbed embed has the effect of its steps, whichever of its three calls fail |
| KnowledgeIndex.KnowledgeBase.ReindexKnowledge | app/api/routes/knowledge.py:275-288 | one forced embed, with its current text, for each of the first 200 documents found; the number is returned |
| KnowledgeIndex.KnowledgeBase.DeleteDocument | app/api/routes/knowledge.py:354-366 | the vector goes first, a failing store being ignored, then the row if the commit succeeds; a missing document changes nothing |
| ChatMemory.HistoryMeaning | app/memory/short_term.py:61-64 | a read with a limit gives the last messages up to it; a limit of zero gives all |
| ChatMemory.LogIsSuffix | app/memory/short_term.py:53-59 | however pushes and trims interleave, the list is a suffix of the untrimmed one and equals it while shorter than 200 |
| ChatMemory.WindowRefinesIdeal | app/memory/short_term.py:53-64 | a read of up to 200 messages is the same as over the log that is never trimmed |
| ChatMemory.TrimBounds | app/memory/short_term.py:58 | after a trim the list has at most 200 messages |
| ChatMemory.StickyMeaning | app/services/chat_service.py:253-264 | the scan gives the department of the last agent message that names one, and none iff there is none |
| ChatMemory.RunsInMeaning | app/services/chat_service.py:266-272 | a turn runs in the pinned department; else in that of the last agent message with one among the last ten; else where the text is routed |
| ChatMemory.AnswerMeaning | app/services/chat_service.py:359-467 | a reply is that of the first of signal and intent that names another department, else of the topic, else of the current one; the log ends in the user's message and that reply |
| ChatMemory.DepartmentSticks | app/services/chat_service.py:251-303 | after a turn whose reply by D was recorded and turns that fail without one, the next unpinned turn runs in D iff fewer than ten of them recorded a message (else it is routed afresh), over the trimmed log from any start |
| ChatMemory.NineFailuresKeepDepartment | app/services/chat_service.py:485-499 | up to nine failing turns, whatever they recorded, keep the department |
| ChatMemory.StickyBehindUsers | app/services/chat_service.py:251-264 | the scan finds an agent message behind fewer than ten user messages, and nothing behind ten |
| ChatMemory.ShortTermMemory.Rpush | app/memory/short_term.py:57 | one message is appended to that session only |
| ChatMemory.ShortTermMemory.Ltrim | app/memory/short_term.py:58 | that session keeps its last 200 messages |
| ChatMemory.ShortTermMemory.AppendMessage | app/memory/short_term.py:53-59 | push, trim and expiry, any of which may fail: the log is exactly that of the steps that succeeded, other sessions are untouched |
| ChatMemory.ShortTermMemory.GetHistory | app/memory/short_term.py:61-64 | the requested window, unchanged |
| ChatMemory.ShortTermMemory.ClearSession | app/memory/short_term.py:66-67 | that session's list is gone and no other |
| ChatMemory.ChatService.StickyDepartment | app/services/chat_service.py:253-264 | the backwards scan gives the department of the last agent message that names one |
| ChatMemory.ChatService.Handle | app/services/chat_service.py:251-499 | however it goes, a turn leaves the log of its specification and touches no other session; it raises iff recording the user's message fails, and otherwise answers, by cases on the signals if it succeeds, in the department its reply is recorded under |
| KbRetrieval.KeyMeaning | app/services/chat_service.py:230 | two snippets count as one iff they agree on their first 120 characters |
| KbRetrieval.DedupAt | app/services/chat_service.py:226-233 | a first occurrence by 120-character key stands right behind the first occurrences before it |
| KbRetrieval.DedupMeaning | app/services/chat_service.py:226-233 | the deduplicated list holds only first occurrences, every key, and none twice |
| KbRetrieval.DedupPrefix | app/services/chat_service.py:229 | later snippets never displace earlier ones |
| KbRetrieval.MergeIsCappedDedup | app/services/chat_service.py:226-238 | the result is the prefix of the stable dedup of exactly the length the cap allows |
| KbRetrieval.PinnedNeverCut | app/services/chat_service.py:211-238 | no department-pinned snippet is cut, nor any catalogue snippet on a product query |
| KbRetrieval.MergeSnippets | app/services/chat_service.py:226-238 | the loop with the seen-set computes the capped dedup |
| KbRetrieval.SortDescending | app/services/chat_service.py:123 | all items, by descending score, ties in their original order |
| KbRetrieval.RankingUnique | app/services/chat_service.py:123 | there is only one such order |
| KbRetrieval.HitsMeaning | app/services/chat_service.py:121 | the score is the number of keywords that occur in the text |
| KbRetrieval.ScoreAllAt | app/services/chat_service.py:115-122 | each document with text is scored, in order, by its keywords (1 without any) and shown as its title and first 2000 characters; there is nothing else |
| KbRetrieval.KeywordTopK | app/services/chat_service.py:114-124 | keyword retrieval gives the true top k: in rank order, and everything left out ranks after everything taken |
| KbRetrieval.DbKeywordContext | app/services/chat_service.py:114-124 | scoring loop, sort and cut compute that top k, skipping blank documents |
| KbRetrieval.RetrieveKbContext | app/services/chat_service.py:221-238 | vector hits are used if there are any and the keyword ranking otherwise, merged behind the pinned snippets and joined by blank lines |
| TokenSessions.ChainsKept | app/api/routes/auth.py:246-318 | in every run, overlapping requests included, a refreshed token has the user and version of the token it was refreshed from |
| TokenSessions.RefreshNeverRevives | app/api/routes/auth.py:289-318 | a refresh chain of any length carries the version of the login it began with, so it is accepted only when that login token, if unexpired, would be |
| TokenSessions.AcceptedIffNotRevoked | app/security/auth.py:65-118 | with bumps not overlapping: every token has at most the current version, and is accepted iff unexpired, the account active and no bump committed since its version was read; in particular none since it was minted |
| TokenSessions.RevokedForGoodIff | app/security/auth.py:65-118 | after any run, and if bumps of the user begun from then on do not overlap, no revoked token of the user is accepted iff the user's unexpired tokens and signatures under way are safe and no bump of the user is in flight |
| TokenSessions.BumpRevokesForGoodIff | app/api/routes/auth.py:424-428 | committing a bump, after any run, revokes the user's sessions for good, other bumps in flight committing at any time, iff every unexpired token of the user has at most the version read, every signature under way at most the next, and no other bump of the user is in flight |
| TokenSessions.OverlapAlwaysRevives | app/api/routes/auth.py:424-428 | from any state, for any account, some run of overlapping sign-outs ends with a revoked token accepted |
| TokenSessions.RevokedForeverIffSafe | app/security/auth.py:65-118 | after any run, and while no bumps overlap from then on, those in flight included, no revoked token is accepted iff every unexpired token has at most its user's version, less if revoked, and no signature under way has more |
| TokenSessions.BumpRevokesIff | app/api/routes/auth.py:424-428 | committing a bump, after any run, guarantees that no revoked token is accepted while no bumps overlap from then on, those in flight included, iff the other users are safe, every unexpired token of the user has at most the version read and every signature under way at most the next |
| TokenSessions.FirstOverlapRevokesIff | app/api/routes/auth.py:424-428 | while bumps overlap neither before nor after, the condition is only on the user's tokens and signatures, and it holds when no other bump of the user was committed since the read |
| TokenSessions.BumpRevokesIffSerial | app/api/routes/auth.py:424-428 | while bumps overlap neither before nor after, for a user with a live session, the guarantee holds iff no other bump of the user was committed since the read |
| TokenSessions.ClimbBack | app/api/routes/auth.py:409-412 | a token whose version the user's has not yet reached, or has reached and was revoked, is accepted after a run of ordinary sign-outs although revoked |
| TokenSessions.OverlapGoesStale | app/api/routes/auth.py:424-428 | an overlapping bump is followed by a run that accepts a revoked token |
| TokenSessions.DisabledNeverAccepted | app/security/auth.py:83-84 | no token of a disabled account is accepted, and enabling it again restores what was accepted |
| TokenSessions.ExpiredNeverAccepted | app/security/auth.py:53-57 | a token whose time is over is never accepted again, whatever happens |
| TokenSessions.SessionService.GetPrincipal | app/security/auth.py:94-118 | the subject iff unexpired, existing, of the current version and active; otherwise the 401 of the first of these that fails |
| TokenSessions.SessionService.SignPair | app/api/routes/auth.py:246-265 | an access and a refresh token of the version read, valid for an hour and seven days |
| TokenSessions.SessionService.Login | app/api/routes/auth.py:220-266 | a pair of tokens of the current version iff verified and active; no effect otherwise |
| TokenSessions.SessionService.Refresh | app/api/routes/auth.py:277-319 | a new pair iff the token is accepted; no effect otherwise |
| TokenSessions.SessionService.BumpVersion | app/api/routes/auth.py:416-429 | the version rises by one and the caller's own token is no longer accepted |
| LoginLockout.AnswerMeaning | app/api/routes/auth.py:208-244 | an attempt that is let through is denied iff the password or the code is wrong, asked for a code iff it has none, and logged in iff all is right |
| LoginLockout.AloneAsInSequence | app/api/routes/auth.py:205-244 | an attempt during which no other runs does the same in the overlapping model as in the sequential one |
| LoginLockout.CounterMeaning | app/api/routes/auth.py:42-50 | the entry is the number of failures since the last success, with a lock 900 s after the last one from the fifth on |
| LoginLockout.LockedIff | app/api/routes/auth.py:32-39 | an attempt is turned away iff the streak is at least five and the last failure at most 899 s old |
| LoginLockout.FailureRateBounded | app/api/routes/auth.py:208-244 | attempts one after the other: any span of T seconds without a success admits at most 5 + T/899 recorded failures |
| LoginLockout.OverlappingRateBounded | app/api/routes/auth.py:208-244 | with at most m attempts under way at a time, in any order, a span of T seconds without a success admits at most 4 + m + m * T/899 recorded failures |
| LoginLockout.OverlappingBoundIsTight | app/api/routes/auth.py:208-244 | with m attempts under way, 4 + 2m failures fit in any window longer than 899 s |
| LoginLockout.BoundIsTight | app/api/routes/auth.py:38 | six failures fit in any window longer than 899 s, so the 900 s of the lock would not do |
| LoginLockout.LoginGuard.LockoutRemainingSeconds | app/api/routes/auth.py:32-39 | the remaining seconds, truncated, never negative, 0 without a lock |
| LoginLockout.LoginGuard.RecordLoginFailure | app/api/routes/auth.py:42-50 | one more failure for that username and no other |
| LoginLockout.LoginGuard.ClearLoginFailures | app/api/routes/auth.py:70-71 | that username's entry is gone and no other |
| LoginLockout.LoginGuard.Login | app/api/routes/auth.py:205-244 | a locked attempt changes nothing; a bad password or code is denied and counted, with a lock of 900 s from the fifth on; a missing code is asked for and changes nothing; success logs in and clears; other usernames are untouched |
| HealthMonitor.RightIffRemembered | app/workers/tasks.py:332-341 | an alert agrees with an edge detector of perfect memory iff the check came within the hour or the service was healthy before |
| HealthMonitor.FromIsRemembered | app/workers/tasks.py:333-340 | an alert names the present state and, if the last check came within the hour, the state it found |
| HealthMonitor.TransitionsInOrder | app/workers/tasks.py:331-341 | the alerts of a run come in the order of the services |
| HealthMonitor.AlertsAlternate | app/workers/tasks.py:332-341 | with checks within the hour, alerts alternate DOWN, RECOVERED from the first, and their parity is the current state |
| HealthMonitor.OneAlertPerOutage | app/workers/tasks.py:332-341 | each maximal run of unhealthy checks alerts once, at its first check, and its end once |
| HealthMonitor.LateCheckRepeats | app/workers/tasks.py:341 | an hour without a check makes a continuing outage alert twice |
| HealthMonitor.ServicesAreIndependent | app/workers/tasks.py:332-341 | over any rounds, the alerts about one service are those of that service watched alone |
| HealthMonitor.HealthKeys.Compare | app/workers/tasks.py:331-341 | the loop over the services emits the transitions against the old keys and rewrites every key |
| ToolNames.JoinUndoesSplit | app/services/action_dispatcher.py:162 | joining the parts of a split gives the name back, whatever the name and the limit |
| ToolNames.DispatchMeaning | app/services/action_dispatcher.py:155-174 | exactly the two built-in names go to the built-in actions, exactly names with the prefix and no further separator are malformed, and exactly all others without the prefix are unknown |
| ToolNames.DispatchCuts | app/services/action_dispatcher.py:160-165 | a printed name is cut at the first separator after the prefix, wherever that lies |
| ToolNames.ParseUndoesPrint | app/services/action_dispatcher.py:118-165 | parsing a printed name gives back connector and tool, for every tool, iff the connector contains no `__` and does not end in `_` |
| ToolNames.BuildMeaning | app/mcp/registry.py:22-24 | a department has exactly the connectors registered for it, and with unique names each name finds its own |
| ToolNames.ListToolsMeaning | app/mcp/registry.py:57-67 | exactly the tools of the given connectors are listed, each with its connector's name |
| ToolNames.ListToolsAt | app/mcp/registry.py:63-67 | the tools are listed connector by connector, tool by tool |
| ToolNames.OfferedInOrder | app/services/action_dispatcher.py:112-122 | the offered names are those of the listed tools, in their order |
| ToolNames.OfferedNamesDispatch | app/services/action_dispatcher.py:110-174 | with unique routable connector names, every offered name dispatches to a tool of a connector of that department, and the lookup finds that very connector |
| ToolNames.EveryToolOffered | app/services/action_dispatcher.py:110-123 | every tool of a department's connectors is offered |
| ToolNames.NamesAreDistinct | app/services/action_dispatcher.py:118 | two tools of routable connectors never share a name, nor take a built-in one |
| ToolNames.ShippedNamesRoutable | app/mcp/registry.py:105-149 | the connectors the repository registers all have routable names |
| ToolNames.TrailingUnderscoreMisroutes | app/services/action_dispatcher.py:162 | a connector `erp_` with tool `pay` is dispatched as `erp`, `_pay` |
| ToolNames.McpRegistry.RegisterConnector | app/mcp/registry.py:22-24 | the name finds the connector, and it is appended to its department |
| ToolNames.McpRegistry.ToolsOf | app/mcp/registry.py:57-67 | the nested loops list the tools of the department's connectors in order |
| ToolNames.McpRegistry.ToolNamesOf | app/services/action_dispatcher.py:110-123 | one printed name per listed tool, in order |
| ToolNames.McpRegistry.Find | app/mcp/registry.py:75-83 | the connector of that name, or an unknown-connector failure |

## Left out

- Language models, speech recognition and synthesis, telephony and payment providers, SMTP, Chroma and SQL internals: arbitrary values or table updates.
- The square root and logarithm of the frame energy: an arbitrary function of the samples. Floating-point rounding: levels and clocks are real numbers.
- CallPlayback.EveryPlaybackIsABlock: the lock may go to any waiting task; asyncio's first-come order is not used, so nothing is claimed about which utterance is answered first.
- BroadcastBus.PollRound: a send that fails ends the loop in the source and is not modelled; nor is a queue subscribed or removed during the round, which the source does not do.
- KnowledgeIndex.KnowledgeBase.EmbedDocument: like the other methods of the class it describes an undisturbed call; interleavings are the subject of the run theorems. The Celery task has no method of its own, only events. A task cancelled while a thread of the executor is writing its vector is an upsert followed by a kill, as the thread runs on; a kill before the upsert is the end of the process.
- KnowledgeIndex.KnowledgeBase.ReindexKnowledge: the query's tenant and order are not modelled, only its limit. `startup_reindex` is the same events for a subset of the documents.
- KnowledgeIndex.CompleteHasVector: holds without a recreated collection and for documents with no deletion begun, because the deletion removes the vector before the row and may still roll back.
- ChatMemory.DepartmentSticks: does not cover the expiry of the history key, a log cleared in between, nor `handle_fast` and `stream_chat_tokens`, which record differently.
- KbRetrieval.PinnedNeverCut: on the list arguments. At the call in `app/services/chat_service.py:321` the department arrives as `Department.SALES`, misses the category map, and the pinned list is empty.
- KbRetrieval.RetrieveKbContext: keyword extraction, the product-query test, SQL filters and limits supply the arguments.
- TokenSessions.AcceptedIffNotRevoked: assumes a reachable database (the source accepts a token when the lookup fails), tokens with a version claim, and accounts that are not deleted and recreated. API keys, `optional_principal` and password reset are outside.
- LoginLockout.OverlappingRateBounded: one process; each of several API processes keeps a counter of its own.
- HealthMonitor.HealthKeys.Compare: a run whose Redis connection breaks in the middle, the probes, and the email sent for the transitions are not modelled.
- ToolNames.OfferedNamesDispatch: tool descriptions, schemas, arguments and results, and the listing without a department, are not modelled.
- The µ-law table, resampling, decoding and WAV headers: finite tables and library calls.
- The session identifier from the UUID frame and the greeting's text: only whether opening the session succeeds matters to the loop.
- The other voice loops in `app/api/ws/voice_ws.py` and `app/api/ws/voice.py`: the same design with other constants, or not mounted.
- The ping loop and the channel preferences of the events WebSocket.
- The regular expressions that detect and strip control signals: the detectors are arbitrary values.
- Scratch state in Redis, durable chat history, billing, tenants, HR and finance records, the built-in mock servers, prompts, telemetry and the frontend: I/O, user interface or one-branch facts.
