/**
 The life of a knowledge document: its committed row, its vector, and the background embeds that
 bring the two together.

 Requests and embeds are cut at their awaits. A product edit is an open transaction holding the
 row lock from its write to its commit, and it spawns its embed before committing. An embed is born
 when its text is captured. An event that is not enabled changes nothing.
 */
module KnowledgeIndex {
  import opened Wrappers

  type DocId = nat

  datatype Status = Pending | Indexed | Complete | Failed

  datatype Row = Row(content: string, status: Status)

  /** An uncommitted write; `isNew` when the row itself is not committed yet. */
  datatype Draft = Draft(content: string, isNew: bool)

  /** `_embed_document` with or without force, or the Celery task. */
  datatype Kind = Local(force: bool) | Celery

  /**
   An embed that is `Upserting` has handed its text to a thread of the executor. A task cancelled then
   is an upsert followed by a kill, for the thread finishes what it began; a kill before the upsert is
   the end of the process.
   */
  datatype Stage = Queued | Upserting | Upserted | Failing | Over

  datatype Embed = Embed(doc: DocId, content: string, kind: Kind, stage: Stage)

  datatype Sys = Sys(
    rows: map<DocId, Row>,
    open: map<DocId, Draft>,
    vectors: map<DocId, string>,
    embeds: seq<Embed>,
    used: set<DocId>,
    deleting: set<DocId>)

  const EMPTY := Sys(map[], map[], map[], [], {}, {})

  datatype Event =
    | Upload(doc: DocId, content: string, celery: bool)
    | BeginCreate(doc: DocId, content: string)
    | BeginEdit(doc: DocId, content: string)
    | Commit(doc: DocId)
    | Rollback(doc: DocId)
    | Reindex(doc: DocId)
    | Begin(embed: nat)
    | Upsert(embed: nat, ok: bool)
    | Finish(embed: nat, ok: bool)
    | MarkFailed(embed: nat, ok: bool)
    | Kill(embed: nat)
    | BeginDelete(doc: DocId, ok: bool)
    | EndDelete(doc: DocId)
    | Recreate

  function Spawn(s: Sys, doc: DocId, content: string, kind: Kind): Sys {
    s.(embeds := s.embeds + [Embed(doc, content, kind, Queued)])
  }

  function SetStage(s: Sys, t: nat, stage: Stage): Sys
    requires t < |s.embeds|
  {
    s.(embeds := s.embeds[t := s.embeds[t].(stage := stage)])
  }

  predicate AtStage(s: Sys, t: nat, stage: Stage) {
    t < |s.embeds| && s.embeds[t].stage == stage
  }

  function SetStatus(s: Sys, doc: DocId, status: Status): Sys {
    if doc in s.rows then s.(rows := s.rows[doc := s.rows[doc].(status := status)]) else s
  }

  /** An update of the row has to wait for an open edit of it; a row not committed yet is not seen. */
  predicate Blocked(s: Sys, doc: DocId) {
    doc in s.rows && doc in s.open
  }

  /** A failed upsert: the Celery task is retried or given up, the local one goes to its handler. */
  function AfterFailure(e: Embed): Stage {
    if e.kind.Celery? then Queued else Failing
  }

  function Step(s: Sys, e: Event): Sys {
    match e
    case Upload(doc, content, celery) =>
      if doc in s.used then s
      else Spawn(s.(rows := s.rows[doc := Row(content, Indexed)], used := s.used + {doc}),
                 doc, content, if celery then Celery else Local(false))
    case BeginCreate(doc, content) =>
      if doc in s.used then s
      else Spawn(s.(open := s.open[doc := Draft(content, true)], used := s.used + {doc}), doc, content, Local(true))
    case BeginEdit(doc, content) =>
      if doc in s.rows && doc !in s.open
      then Spawn(s.(open := s.open[doc := Draft(content, false)]), doc, content, Local(true)) else s
    case Commit(doc) =>
      if doc in s.open then
        s.(rows := s.rows[doc := Row(s.open[doc].content, if s.open[doc].isNew then Pending else Indexed)],
           open := s.open - {doc})
      else s
    case Rollback(doc) => s.(open := s.open - {doc})
    case Reindex(doc) =>
      if doc in s.rows then Spawn(s, doc, s.rows[doc].content, Local(true)) else s
    case Begin(t) =>
      if AtStage(s, t, Queued)
      then SetStage(s, t, if s.embeds[t].kind == Local(false) && s.embeds[t].doc in s.vectors then Over else Upserting)
      else s
    case Upsert(t, ok) =>
      if !AtStage(s, t, Upserting) then s
      else if ok then SetStage(s, t, Upserted).(vectors := s.vectors[s.embeds[t].doc := s.embeds[t].content])
      else SetStage(s, t, AfterFailure(s.embeds[t]))
    case Finish(t, ok) =>
      if !AtStage(s, t, Upserted) || (ok && Blocked(s, s.embeds[t].doc)) then s
      else if ok then SetStage(SetStatus(s, s.embeds[t].doc, Complete), t, Over)
      else SetStage(s, t, if s.embeds[t].kind.Celery? then Over else Failing)
    case MarkFailed(t, ok) =>
      if !AtStage(s, t, Failing) || (ok && Blocked(s, s.embeds[t].doc)) then s
      else
        var doc := s.embeds[t].doc;
        SetStage(if ok && doc in s.rows && s.rows[doc].status == Pending then SetStatus(s, doc, Failed) else s, t, Over)
    case Kill(t) => if t < |s.embeds| then SetStage(s, t, Over) else s
    case BeginDelete(doc, ok) =>
      if doc in s.rows
      then s.(deleting := s.deleting + {doc}, vectors := if ok then s.vectors - {doc} else s.vectors) else s
    case EndDelete(doc) =>
      if doc in s.deleting && doc !in s.open then s.(rows := s.rows - {doc}) else s
    case Recreate => s.(vectors := map[])
  }

  function RunFrom(s: Sys, es: seq<Event>): Sys {
    if es == [] then s else Step(RunFrom(s, es[..|es| - 1]), es[|es| - 1])
  }

  ghost predicate WellFormed(s: Sys) {
    && (forall d :: d in s.rows ==> d in s.used)
    && (forall d :: d in s.open ==> d in s.used && (s.open[d].isNew <==> d !in s.rows))
    && (forall t :: 0 <= t < |s.embeds| ==> s.embeds[t].doc in s.used)
  }

  lemma WellFormedStep(s: Sys, e: Event)
    requires WellFormed(s)
    ensures WellFormed(Step(s, e))
  {
    EmbedsUsedStep(s, e);
    RowsUsedStep(s, e);
  }

  lemma RowsUsedStep(s: Sys, e: Event)
    requires forall d :: d in s.rows ==> d in s.used
    requires forall d :: d in s.open ==> d in s.used
    ensures forall d :: d in Step(s, e).rows ==> d in Step(s, e).used
  {
  }

  lemma EmbedsUsedStep(s: Sys, e: Event)
    requires forall t :: 0 <= t < |s.embeds| ==> s.embeds[t].doc in s.used
    requires forall d :: d in s.rows ==> d in s.used
    ensures forall t :: 0 <= t < |Step(s, e).embeds| ==> Step(s, e).embeds[t].doc in Step(s, e).used
  {
  }

  lemma {:induction false} WellFormedRun(s: Sys, es: seq<Event>)
    requires WellFormed(s)
    ensures WellFormed(RunFrom(s, es))
  {
    if es != [] {
      WellFormedRun(s, es[..|es| - 1]);
      WellFormedStep(RunFrom(s, es[..|es| - 1]), es[|es| - 1]);
    }
  }

  // ----- what single events do

  /** A commit puts the draft in place of the row: a new one is pending, a rewritten one indexed. */
  lemma CommitMeaning(s: Sys, d: DocId)
    requires d in s.open
    ensures var row := Row(s.open[d].content, if s.open[d].isNew then Pending else Indexed);
            Step(s, Commit(d)) == s.(rows := s.rows[d := row], open := s.open - {d})
  {
  }

  lemma RollbackMeaning(s: Sys, d: DocId)
    ensures Step(s, Rollback(d)) == s.(open := s.open - {d})
  {
  }

  /** While an edit of the row is open, the status update of an embed waits. */
  lemma OpenEditBlocks(s: Sys, t: nat)
    requires t < |s.embeds| && s.embeds[t].doc in s.rows && s.embeds[t].doc in s.open
    ensures Step(s, Finish(t, true)) == s && Step(s, MarkFailed(t, true)) == s
  {
  }

  /** The Celery task: a failing upsert is tried again, and a failing status update is let go. */
  lemma CelerySteps(s: Sys, t: nat)
    requires AtStage(s, t, Queued) && s.embeds[t].kind.Celery?
    ensures var begun := Step(s, Begin(t));
            && begun == s.(embeds := s.embeds[t := s.embeds[t].(stage := Upserting)])
            && Step(begun, Upsert(t, false)) == s
            && var written := Step(begun, Upsert(t, true));
               && written.vectors == s.vectors[s.embeds[t].doc := s.embeds[t].content]
               && written.rows == s.rows && AtStage(written, t, Upserted)
               && Step(written, Finish(t, false)).rows == s.rows && AtStage(Step(written, Finish(t, false)), t, Over)
  {
    assert s.embeds[t := s.embeds[t].(stage := Upserting)][t := s.embeds[t]] == s.embeds;
  }

  /** A failure is only ever marked by a local embed, on a pending document. */
  lemma FailedFromPending(s: Sys, e: Event, d: DocId)
    requires d in Step(s, e).rows && Step(s, e).rows[d].status == Failed
    ensures d in s.rows
    ensures s.rows[d].status == Failed ||
            (s.rows[d].status == Pending && e.MarkFailed? && AtStage(s, e.embed, Failing) && s.embeds[e.embed].doc == d)
  {
  }

  lemma {:induction false} FailingIsLocal(es: seq<Event>)
    ensures forall t :: 0 <= t < |RunFrom(EMPTY, es).embeds| && RunFrom(EMPTY, es).embeds[t].stage == Failing ==>
              RunFrom(EMPTY, es).embeds[t].kind.Local?
  {
    if es != [] {
      FailingIsLocal(es[..|es| - 1]);
      FailingStep(RunFrom(EMPTY, es[..|es| - 1]), es[|es| - 1]);
    }
  }

  lemma FailingStep(s: Sys, e: Event)
    requires forall t :: 0 <= t < |s.embeds| && s.embeds[t].stage == Failing ==> s.embeds[t].kind.Local?
    ensures forall t :: 0 <= t < |Step(s, e).embeds| && Step(s, e).embeds[t].stage == Failing ==>
              Step(s, e).embeds[t].kind.Local?
  {
  }

  lemma KillMeaning(s: Sys, t: nat)
    requires t < |s.embeds|
    ensures Step(s, Kill(t)) == s.(embeds := s.embeds[t := s.embeds[t].(stage := Over)])
  {
  }

  // ----- no downgrade

  predicate Working(s: Sys, d: DocId) {
    d in s.rows && (s.rows[d].status == Indexed || s.rows[d].status == Complete)
  }

  /** The document is gone for good: its id is used up and nothing of it is left to commit. */
  predicate Deleted(s: Sys, d: DocId) {
    d in s.used && d !in s.rows && d !in s.open
  }

  lemma WorkingStep(s: Sys, e: Event, d: DocId)
    requires WellFormed(s) && (Working(s, d) || Deleted(s, d))
    ensures Working(Step(s, e), d) || Deleted(Step(s, e), d)
  {
  }

  lemma {:induction false} WorkingRun(s: Sys, es: seq<Event>, d: DocId)
    requires WellFormed(s) && (Working(s, d) || Deleted(s, d))
    ensures Working(RunFrom(s, es), d) || Deleted(RunFrom(s, es), d)
  {
    if es != [] {
      WorkingRun(s, es[..|es| - 1], d);
      WellFormedRun(s, es[..|es| - 1]);
      WorkingStep(RunFrom(s, es[..|es| - 1]), es[|es| - 1], d);
    }
  }

  /** Once indexed or complete, a document stays so for as long as it has a row: it never fails again. */
  lemma NeverDowngraded(es: seq<Event>, later: seq<Event>, d: DocId)
    requires Working(RunFrom(EMPTY, es), d)
    ensures d in RunFrom(RunFrom(EMPTY, es), later).rows ==> Working(RunFrom(RunFrom(EMPTY, es), later), d)
  {
    WellFormedRun(EMPTY, es);
    WorkingRun(RunFrom(EMPTY, es), later, d);
  }

  // ----- complete means there is a vector

  ghost predicate Vectored(s: Sys) {
    && (forall d :: d in s.rows && d !in s.deleting && s.rows[d].status == Complete ==> d in s.vectors)
    && (forall t :: 0 <= t < |s.embeds| && s.embeds[t].stage == Upserted && s.embeds[t].doc !in s.deleting ==>
          s.embeds[t].doc in s.vectors)
  }

  lemma VectoredStep(s: Sys, e: Event)
    requires Vectored(s) && !e.Recreate?
    ensures Vectored(Step(s, e))
  {
    match e
    case Upsert(t, ok) => VectoredUpsert(s, t, ok);
    case Finish(t, ok) => VectoredFinish(s, t, ok);
    case _ =>
  }

  lemma VectoredUpsert(s: Sys, t: nat, ok: bool)
    requires Vectored(s)
    ensures Vectored(Step(s, Upsert(t, ok)))
  {
  }

  lemma VectoredFinish(s: Sys, t: nat, ok: bool)
    requires Vectored(s)
    ensures Vectored(Step(s, Finish(t, ok)))
  {
  }

  /** If the collection is never recreated, a complete document not being deleted has a vector. */
  lemma {:induction false} CompleteHasVector(es: seq<Event>)
    requires Recreate !in es
    ensures Vectored(RunFrom(EMPTY, es))
  {
    if es != [] {
      assert forall e :: e in es[..|es| - 1] ==> e in es;
      CompleteHasVector(es[..|es| - 1]);
      VectoredStep(RunFrom(EMPTY, es[..|es| - 1]), es[|es| - 1]);
    }
  }

  // ----- agreement of vector and row

  /** The document says its vector is in place, and no edit of it is open: then the texts agree. */
  ghost predicate Agrees(s: Sys, d: DocId) {
    d in s.rows && d !in s.open && s.rows[d].status == Complete ==> d in s.vectors && s.vectors[d] == s.rows[d].content
  }

  predicate Present(s: Sys, d: DocId) {
    d in s.rows || d in s.open
  }

  /** The text the document has, or will have when its open edit commits. */
  function Target(s: Sys, d: DocId): string
    requires Present(s, d)
  {
    if d in s.open then s.open[d].content else s.rows[d].content
  }

  predicate LiveOn(s: Sys, t: nat, d: DocId) {
    t < |s.embeds| && s.embeds[t].doc == d && s.embeds[t].stage != Over
  }

  /** The embed may yet write its text: it is not past the upsert, nor due to skip it. */
  predicate MayUpsert(s: Sys, t: nat)
    requires t < |s.embeds|
  {
    || s.embeds[t].stage == Upserting
    || (s.embeds[t].stage == Queued && (s.embeds[t].kind == Local(false) ==> s.embeds[t].doc !in s.vectors))
  }

  ghost predicate EmbedCoherent(s: Sys, t: nat, d: DocId)
    requires Present(s, d)
  {
    LiveOn(s, t, d) ==>
      && (MayUpsert(s, t) ==> s.embeds[t].content == Target(s, d))
      && (s.embeds[t].stage == Upserted ==> d in s.vectors && s.vectors[d] == Target(s, d))
  }

  /** Texts agree now, and every embed in flight carries the text the document has or will have. */
  ghost predicate Coherent(s: Sys, d: DocId) {
    Present(s, d) ==> Agrees(s, d) && forall t :: 0 <= t < |s.embeds| ==> EmbedCoherent(s, t, d)
  }

  predicate Captures(s: Sys, e: Event, d: DocId) {
    match e
    case Upload(doc, _, _) => doc == d
    case BeginCreate(doc, _) => doc == d
    case BeginEdit(doc, _) => doc == d
    case Reindex(doc) => doc == d
    case _ => false
  }

  /** Nothing of d is embedded or being edited. */
  ghost predicate Quiet(s: Sys, d: DocId) {
    d !in s.open && forall t :: 0 <= t < |s.embeds| ==> !LiveOn(s, t, d)
  }

  /** Embeds of d do not overlap, edits of d do not fail, and d's vector is not taken away. */
  ghost predicate Orderly(s: Sys, e: Event, d: DocId) {
    && (Captures(s, e, d) ==> Quiet(s, d))
    && e != Rollback(d) && !(e.BeginDelete? && e.doc == d) && e != EndDelete(d) && !e.Recreate?
  }

  ghost predicate OrderlyRun(s: Sys, es: seq<Event>, d: DocId) {
    es == [] || (OrderlyRun(s, es[..|es| - 1], d) && Orderly(RunFrom(s, es[..|es| - 1]), es[|es| - 1], d))
  }

  /** The document itself looks the same, except perhaps for a status that is not `Complete`. */
  ghost predicate SameDoc(s: Sys, s': Sys, d: DocId) {
    && (d in s'.rows <==> d in s.rows)
    && (d in s.rows ==> s'.rows[d].content == s.rows[d].content)
    && (d in s.rows && s'.rows[d].status == Complete ==> s.rows[d].status == Complete)
    && (d in s'.open <==> d in s.open) && (d in s.open ==> s'.open[d] == s.open[d])
    && (d in s'.vectors <==> d in s.vectors) && (d in s.vectors ==> s'.vectors[d] == s.vectors[d])
  }

  /** No embed of d has come into being, written, or become able to write. */
  ghost predicate Harmless(s: Sys, s': Sys, d: DocId) {
    && |s.embeds| <= |s'.embeds|
    && (forall t :: |s.embeds| <= t < |s'.embeds| ==> s'.embeds[t].doc != d)
    && (forall t :: 0 <= t < |s.embeds| && s.embeds[t].doc == d && s'.embeds[t].stage != Over ==>
          && s.embeds[t].stage != Over
          && s'.embeds[t].content == s.embeds[t].content
          && (MayUpsert(s', t) ==> MayUpsert(s, t))
          && (s'.embeds[t].stage == Upserted ==> s.embeds[t].stage == Upserted))
    && (forall t :: 0 <= t < |s.embeds| ==> s'.embeds[t].doc == s.embeds[t].doc)
  }

  lemma CoherentFrame(s: Sys, s': Sys, d: DocId)
    requires Coherent(s, d) && SameDoc(s, s', d) && Harmless(s, s', d)
    ensures Coherent(s', d)
  {
    if Present(s', d) {
      forall t | 0 <= t < |s'.embeds|
        ensures EmbedCoherent(s', t, d)
      {
        assert t < |s.embeds| ==> EmbedCoherent(s, t, d);
      }
    }
  }

  lemma CoherentCapture(s: Sys, e: Event, d: DocId)
    requires WellFormed(s) && Coherent(s, d) && Orderly(s, e, d) && Captures(s, e, d)
    ensures Coherent(Step(s, e), d)
  {
    var s' := Step(s, e);
    forall t | 0 <= t < |s'.embeds| && Present(s', d)
      ensures EmbedCoherent(s', t, d)
    {
      assert t < |s.embeds| ==> !LiveOn(s, t, d);
    }
  }

  lemma CoherentCommit(s: Sys, d: DocId)
    requires Coherent(s, d)
    ensures Coherent(Step(s, Commit(d)), d)
  {
    var s' := Step(s, Commit(d));
    if d in s.open {
      forall t | 0 <= t < |s'.embeds|
        ensures EmbedCoherent(s', t, d)
      {
        assert EmbedCoherent(s, t, d);
      }
    }
  }

  lemma OtherIsFrame(s: Sys, e: Event, d: DocId)
    requires WellFormed(s) && Orderly(s, e, d) && !Captures(s, e, d)
    requires !e.Upsert? && !e.Finish? && e != Commit(d)
    ensures SameDoc(s, Step(s, e), d) && Harmless(s, Step(s, e), d)
  {
    OtherKeepsDoc(s, e, d);
    match e
    case Upload(_, _, _) => SpawnHarmless(s, e, d);
    case BeginCreate(_, _) => SpawnHarmless(s, e, d);
    case BeginEdit(_, _) => SpawnHarmless(s, e, d);
    case Reindex(_) => SpawnHarmless(s, e, d);
    case Begin(_) => StageHarmless(s, e, d);
    case MarkFailed(_, _) => StageHarmless(s, e, d);
    case Kill(_) => StageHarmless(s, e, d);
    case _ => RowHarmless(s, e, d);
  }

  /** A new embed of another document. */
  lemma SpawnHarmless(s: Sys, e: Event, d: DocId)
    requires e.Upload? || e.BeginCreate? || e.BeginEdit? || e.Reindex?
    requires !Captures(s, e, d)
    ensures Harmless(s, Step(s, e), d)
  {
    assert Step(s, e).vectors == s.vectors;
    assert s.embeds <= Step(s, e).embeds;
  }

  /** An embed moves on without writing. */
  lemma StageHarmless(s: Sys, e: Event, d: DocId)
    requires e.Begin? || e.MarkFailed? || e.Kill?
    ensures Harmless(s, Step(s, e), d)
  {
    assert Step(s, e).vectors == s.vectors;
    assert |Step(s, e).embeds| == |s.embeds|;
  }

  /** Rows and vectors of other documents change, and no embed does. */
  lemma RowHarmless(s: Sys, e: Event, d: DocId)
    requires e.Commit? || e.Rollback? || e.BeginDelete? || e.EndDelete?
    requires Orderly(s, e, d)
    ensures Harmless(s, Step(s, e), d)
  {
    assert Step(s, e).embeds == s.embeds;
    assert d in Step(s, e).vectors <==> d in s.vectors;
  }

  lemma OtherKeepsDoc(s: Sys, e: Event, d: DocId)
    requires Orderly(s, e, d) && !Captures(s, e, d)
    requires !e.Upsert? && !e.Finish? && e != Commit(d)
    ensures SameDoc(s, Step(s, e), d)
  {
  }

  lemma CoherentUpsert(s: Sys, u: nat, ok: bool, d: DocId)
    requires WellFormed(s) && Coherent(s, d)
    ensures Coherent(Step(s, Upsert(u, ok)), d)
  {
    var s' := Step(s, Upsert(u, ok));
    if Present(s', d) && AtStage(s, u, Upserting) {
      assert EmbedCoherent(s, u, d);
      forall t | 0 <= t < |s'.embeds|
        ensures EmbedCoherent(s', t, d)
      {
        assert EmbedCoherent(s, t, d);
      }
    }
  }

  lemma CoherentFinish(s: Sys, u: nat, ok: bool, d: DocId)
    requires WellFormed(s) && Coherent(s, d)
    ensures Coherent(Step(s, Finish(u, ok)), d)
  {
    var s' := Step(s, Finish(u, ok));
    if Present(s', d) && AtStage(s, u, Upserted) {
      assert EmbedCoherent(s, u, d);
      forall t | 0 <= t < |s'.embeds|
        ensures EmbedCoherent(s', t, d)
      {
        assert EmbedCoherent(s, t, d);
      }
    }
  }

  lemma {:induction false} CoherentRun(s: Sys, es: seq<Event>, d: DocId)
    requires WellFormed(s) && Coherent(s, d) && OrderlyRun(s, es, d)
    ensures Coherent(RunFrom(s, es), d)
  {
    if es != [] {
      var front, e := es[..|es| - 1], es[|es| - 1];
      CoherentRun(s, front, d);
      WellFormedRun(s, front);
      var u := RunFrom(s, front);
      if Captures(u, e, d) {
        CoherentCapture(u, e, d);
      } else if e.Upsert? {
        CoherentUpsert(u, e.embed, e.ok, d);
      } else if e.Finish? {
        CoherentFinish(u, e.embed, e.ok, d);
      } else if e == Commit(d) {
        CoherentCommit(u, d);
      } else {
        OtherIsFrame(u, e, d);
        CoherentFrame(u, Step(u, e), d);
      }
    }
  }

  /** Every orderly continuation keeps vector and row in agreement whenever the status says so. */
  ghost predicate AgreesForever(s: Sys, d: DocId) {
    forall es :: OrderlyRun(s, es, d) ==> Agrees(RunFrom(s, es), d)
  }

  lemma RunFromConcat(s: Sys, a: seq<Event>, b: seq<Event>, d: DocId)
    ensures RunFrom(s, a + b) == RunFrom(RunFrom(s, a), b)
    ensures OrderlyRun(s, a + b, d) <==> OrderlyRun(s, a, d) && OrderlyRun(RunFrom(s, a), b, d)
  {
    if b == [] {
      assert a + b == a;
    } else {
      assert (a + b)[..|a + b| - 1] == a + b[..|b| - 1];
      RunFromConcat(s, a, b[..|b| - 1], d);
    }
  }

  lemma Extend(s: Sys, es: seq<Event>, u: Sys, e: Event, d: DocId) returns (fs: seq<Event>)
    requires RunFrom(s, es) == u && OrderlyRun(s, es, d) && Orderly(u, e, d)
    ensures fs == es + [e] && RunFrom(s, fs) == Step(u, e) && OrderlyRun(s, fs, d)
  {
    fs := es + [e];
    assert fs[..|es|] == es;
  }

  /** Commit the open edit, if any. */
  lemma Settle(s: Sys, d: DocId) returns (es: seq<Event>)
    requires Present(s, d)
    ensures OrderlyRun(s, es, d)
    ensures var u := RunFrom(s, es);
            && d in u.rows && d !in u.open && u.rows[d].content == Target(s, d)
            && u.vectors == s.vectors && u.embeds == s.embeds
  {
    es := [];
    if d in s.open {
      es := Extend(s, [], s, Commit(d), d);
    }
  }

  /** Bring a settled embed to its upsert. */
  lemma BringToUpsert(s: Sys, d: DocId, t: nat) returns (es: seq<Event>)
    requires d in s.rows && d !in s.open && LiveOn(s, t, d) && MayUpsert(s, t)
    ensures OrderlyRun(s, es, d)
    ensures var u := RunFrom(s, es);
            && d in u.rows && d !in u.open && u.rows[d].content == s.rows[d].content
            && LiveOn(u, t, d) && u.embeds[t].stage == Upserted
            && d in u.vectors && u.vectors[d] == s.embeds[t].content
  {
    es := [];
    var u := s;
    if u.embeds[t].stage == Queued {
      es := Extend(s, es, u, Begin(t), d);
      u := Step(u, Begin(t));
    }
    assert u.embeds[t] == s.embeds[t].(stage := Upserting);
    es := Extend(s, es, u, Upsert(t, true), d);
  }

  lemma FinishBreaks(s: Sys, d: DocId, t: nat) returns (es: seq<Event>)
    requires d in s.rows && d !in s.open && LiveOn(s, t, d) && s.embeds[t].stage == Upserted
    requires d in s.vectors ==> s.vectors[d] != s.rows[d].content
    ensures OrderlyRun(s, es, d) && !Agrees(RunFrom(s, es), d)
  {
    es := Extend(s, [], s, Finish(t, true), d);
  }

  /** An embed that may still write another text, or wrote one and is about to say so, breaks agreement. */
  lemma IncoherentBreaks(s: Sys, d: DocId, t: nat) returns (es: seq<Event>)
    requires Present(s, d) && t < |s.embeds| && !EmbedCoherent(s, t, d)
    ensures OrderlyRun(s, es, d) && !Agrees(RunFrom(s, es), d)
  {
    es := Settle(s, d);
    var u := RunFrom(s, es);
    if u.embeds[t].stage != Upserted {
      var more := BringToUpsert(u, d, t);
      RunFromConcat(s, es, more, d);
      es := es + more;
      u := RunFrom(s, es);
    }
    var last := FinishBreaks(u, d, t);
    RunFromConcat(s, es, last, d);
    es := es + last;
  }

  /**
   From any state, however it came about, agreement is guaranteed in every orderly continuation
   exactly if it holds now and every embed in flight carries or wrote the text that the document has
   or is about to have.
   */
  lemma AgreementIffCoherent(s: Sys, d: DocId)
    requires WellFormed(s)
    ensures AgreesForever(s, d) <==> Coherent(s, d)
  {
    if Coherent(s, d) {
      forall es | OrderlyRun(s, es, d)
        ensures Agrees(RunFrom(s, es), d)
      {
        CoherentRun(s, es, d);
      }
    } else if !Agrees(s, d) {
      assert OrderlyRun(s, [], d) && RunFrom(s, []) == s;
    } else {
      var t :| 0 <= t < |s.embeds| && !EmbedCoherent(s, t, d);
      var es := IncoherentBreaks(s, d, t);
    }
  }

  /** In an orderly run a complete document's vector is the embedding of exactly its text. */
  lemma OrderlyRunsAgree(es: seq<Event>, d: DocId)
    requires OrderlyRun(EMPTY, es, d)
    ensures Agrees(RunFrom(EMPTY, es), d)
  {
    CoherentRun(EMPTY, es, d);
  }

  // ----- a document at rest, whatever its status

  predicate VectorFits(s: Sys, d: DocId) {
    Present(s, d) && d in s.vectors && s.vectors[d] == Target(s, d)
  }

  /** Embed t of d may still write d's text. */
  predicate Carries(s: Sys, t: nat, d: DocId) {
    Present(s, d) && LiveOn(s, t, d) && MayUpsert(s, t) && s.embeds[t].content == Target(s, d)
  }

  /** The vector has the document's text, or some embed will write it. */
  ghost predicate Backed(s: Sys, d: DocId) {
    VectorFits(s, d) || exists t: nat :: Carries(s, t, d)
  }

  /** Event e takes an embed of d away before it wrote: its upsert fails for good, or it is killed. */
  predicate TakesAway(s: Sys, e: Event, d: DocId) {
    match e
    case Upsert(t, ok) => !ok && AtStage(s, t, Upserting) && s.embeds[t].doc == d && s.embeds[t].kind.Local?
    case Kill(t) => LiveOn(s, t, d) && MayUpsert(s, t)
    case _ => false
  }

  /** Event e starts an embed of d. */
  predicate Starts(s: Sys, e: Event, d: DocId) {
    Captures(s, e, d) && |Step(s, e).embeds| > |s.embeds|
  }

  /** The latest embed of d was taken away while the vector had another text, or none. */
  predicate Lost(s: Sys, es: seq<Event>, d: DocId) {
    es != [] &&
    var u, e := RunFrom(s, es[..|es| - 1]), es[|es| - 1];
    && !Starts(u, e, d)
    && (Lost(s, es[..|es| - 1], d) || (TakesAway(u, e, d) && !VectorFits(u, d)))
  }

  ghost predicate OneLive(s: Sys, d: DocId) {
    forall t: nat, u: nat :: LiveOn(s, t, d) && LiveOn(s, u, d) ==> t == u
  }

  /** In an orderly run a document has one embed at most, which carries its text; ids are used up. */
  ghost predicate Tidy(s: Sys, d: DocId) {
    && WellFormed(s) && Coherent(s, d) && OneLive(s, d)
    && (forall v :: v in s.vectors ==> v in s.used)
    && (!Present(s, d) ==> forall t: nat :: !LiveOn(s, t, d))
  }

  lemma LiveBefore(s: Sys, e: Event, d: DocId, t: nat)
    requires !Starts(s, e, d) && LiveOn(Step(s, e), t, d)
    ensures LiveOn(s, t, d)
  {
  }

  lemma VectorsUsedStep(s: Sys, e: Event)
    requires WellFormed(s) && forall v :: v in s.vectors ==> v in s.used
    ensures forall v :: v in Step(s, e).vectors ==> v in Step(s, e).used
  {
  }

  lemma PresentStep(s: Sys, e: Event, d: DocId)
    requires Orderly(s, e, d) && !Starts(s, e, d)
    ensures Present(Step(s, e), d) <==> Present(s, d)
    ensures Present(s, d) ==> Target(Step(s, e), d) == Target(s, d)
  {
  }

  lemma StartsPresent(s: Sys, e: Event, d: DocId)
    requires WellFormed(s) && Orderly(s, e, d) && Starts(s, e, d)
    requires forall v :: v in s.vectors ==> v in s.used
    ensures Present(Step(s, e), d) && Carries(Step(s, e), |s.embeds|, d) && |Step(s, e).embeds| == |s.embeds| + 1
    ensures forall t: nat :: t < |s.embeds| ==> !LiveOn(Step(s, e), t, d)
  {
    forall t: nat | t < |s.embeds|
      ensures !LiveOn(Step(s, e), t, d)
    {
      assert !LiveOn(s, t, d);
    }
  }

  lemma TidyStep(s: Sys, e: Event, d: DocId)
    requires Tidy(s, d) && Orderly(s, e, d) && Coherent(Step(s, e), d)
    ensures Tidy(Step(s, e), d)
  {
    WellFormedStep(s, e);
    VectorsUsedStep(s, e);
    if Starts(s, e, d) {
      StartsPresent(s, e, d);
    } else {
      PresentStep(s, e, d);
      forall t: nat | LiveOn(Step(s, e), t, d)
        ensures LiveOn(s, t, d)
      {
        LiveBefore(s, e, d, t);
      }
    }
  }

  lemma {:induction false} TidyRun(es: seq<Event>, d: DocId)
    requires OrderlyRun(EMPTY, es, d)
    ensures Tidy(RunFrom(EMPTY, es), d)
  {
    CoherentRun(EMPTY, es, d);
    if es != [] {
      TidyRun(es[..|es| - 1], d);
      TidyStep(RunFrom(EMPTY, es[..|es| - 1]), es[|es| - 1], d);
    }
  }

  /** Only an upsert of an embed of d changes d's vector, and it writes d's text. */
  lemma FitsStep(s: Sys, e: Event, d: DocId)
    requires Tidy(s, d) && Orderly(s, e, d) && !Starts(s, e, d) && Present(s, d)
    ensures VectorFits(Step(s, e), d) <==>
            VectorFits(s, d) || (e.Upsert? && e.ok && AtStage(s, e.embed, Upserting) && s.embeds[e.embed].doc == d)
  {
    PresentStep(s, e, d);
    if e.Upsert? && AtStage(s, e.embed, Upserting) && s.embeds[e.embed].doc == d {
      assert EmbedCoherent(s, e.embed, d);
    }
  }

  /** What e does to embed t, if anything, is to t itself. */
  predicate Touches(e: Event, t: nat) {
    match e
    case Begin(k) => k == t
    case Upsert(k, _) => k == t
    case Finish(k, _) => k == t
    case MarkFailed(k, _) => k == t
    case Kill(k) => k == t
    case _ => false
  }

  /** An embed goes on carrying the text until it writes or is taken away. */
  lemma CarriesTouched(s: Sys, e: Event, d: DocId, t: nat)
    requires Carries(s, t, d) && Touches(e, t)
    ensures var written := e == Upsert(t, true) && AtStage(s, t, Upserting);
            Carries(Step(s, e), t, d) <==> !TakesAway(s, e, d) && !written
  {
    var u := Step(s, e);
    assert u.rows == s.rows || e.Finish? || e.MarkFailed?;
    assert u.open == s.open && u.embeds[t].content == s.embeds[t].content;
  }

  lemma OtherEmbedStays(s: Sys, e: Event, t: nat)
    requires t < |s.embeds| && !Touches(e, t)
    ensures t < |Step(s, e).embeds| && Step(s, e).embeds[t] == s.embeds[t]
  {
  }

  lemma OtherVectorStays(s: Sys, e: Event, d: DocId, t: nat)
    requires Tidy(s, d) && Orderly(s, e, d) && LiveOn(s, t, d) && !Touches(e, t)
    ensures d in Step(s, e).vectors <==> d in s.vectors
  {
    if e.Upsert? && AtStage(s, e.embed, Upserting) {
      assert !LiveOn(s, e.embed, d);
    }
  }

  lemma CarriesStep(s: Sys, e: Event, d: DocId, t: nat)
    requires Tidy(s, d) && Orderly(s, e, d) && !Starts(s, e, d) && Carries(s, t, d)
    ensures var written := e == Upsert(t, true) && AtStage(s, t, Upserting);
            Carries(Step(s, e), t, d) <==> !TakesAway(s, e, d) && !written
  {
    if Touches(e, t) {
      CarriesTouched(s, e, d, t);
    } else {
      PresentStep(s, e, d);
      OtherEmbedStays(s, e, t);
      OtherVectorStays(s, e, d, t);
      assert (e.Upsert? || e.Kill?) ==> !LiveOn(s, e.embed, d);
    }
  }

  lemma CarriesBefore(s: Sys, e: Event, d: DocId, t: nat)
    requires Tidy(s, d) && Orderly(s, e, d) && !Starts(s, e, d) && Carries(Step(s, e), t, d)
    ensures Carries(s, t, d)
  {
    PresentStep(s, e, d);
    LiveBefore(s, e, d, t);
  }

  lemma BackedStep(s: Sys, e: Event, d: DocId)
    requires Tidy(s, d) && Orderly(s, e, d) && !Starts(s, e, d) && Present(s, d)
    ensures Backed(Step(s, e), d) <==> Backed(s, d) && !(TakesAway(s, e, d) && !VectorFits(s, d))
  {
    FitsStep(s, e, d);
    if t: nat :| Carries(Step(s, e), t, d) {
      CarriesBefore(s, e, d, t);
      if !VectorFits(s, d) {
        CarriesStep(s, e, d, t);
      }
    }
    if !VectorFits(s, d) {
      if t: nat :| Carries(s, t, d) {
        CarriesStep(s, e, d, t);
        if TakesAway(s, e, d) {
          assert !VectorFits(Step(s, e), d);
        }
      } else if e.Upsert? && e.ok && AtStage(s, e.embed, Upserting) && s.embeds[e.embed].doc == d {
        assert EmbedCoherent(s, e.embed, d);
        assert Carries(s, e.embed, d);
      }
    }
  }

  lemma {:induction false} BackedUnlessLost(es: seq<Event>, d: DocId)
    requires OrderlyRun(EMPTY, es, d) && Present(RunFrom(EMPTY, es), d)
    ensures Backed(RunFrom(EMPTY, es), d) <==> !Lost(EMPTY, es, d)
  {
    var front, e := es[..|es| - 1], es[|es| - 1];
    var u := RunFrom(EMPTY, front);
    TidyRun(front, d);
    if Starts(u, e, d) {
      StartsPresent(u, e, d);
    } else {
      PresentStep(u, e, d);
      BackedUnlessLost(front, d);
      BackedStep(u, e, d);
    }
  }

  /**
   At rest, with no embed of it in flight and no edit open, a document has the vector of its text,
   whatever its status, exactly if its latest embed was not taken away while the vector had another
   text.
   */
  lemma {:induction false} RestAgreesIff(es: seq<Event>, d: DocId)
    requires OrderlyRun(EMPTY, es, d) && d in RunFrom(EMPTY, es).rows && Quiet(RunFrom(EMPTY, es), d)
    ensures var s := RunFrom(EMPTY, es);
            (d in s.vectors && s.vectors[d] == s.rows[d].content) <==> !Lost(EMPTY, es, d)
  {
    BackedUnlessLost(es, d);
    var s := RunFrom(EMPTY, es);
    forall t: nat
      ensures !Carries(s, t, d)
    {
      assert t < |s.embeds| ==> !LiveOn(s, t, d);
    }
  }

  /** In particular when no upsert of d fails for good and none of its embeds is killed. */
  lemma {:induction false} UnharmedRestAgrees(es: seq<Event>, d: DocId)
    requires OrderlyRun(EMPTY, es, d) && d in RunFrom(EMPTY, es).rows && Quiet(RunFrom(EMPTY, es), d)
    requires forall k :: 0 <= k < |es| ==> !TakesAway(RunFrom(EMPTY, es[..k]), es[k], d)
    ensures d in RunFrom(EMPTY, es).vectors
    ensures RunFrom(EMPTY, es).vectors[d] == RunFrom(EMPTY, es).rows[d].content
  {
    NotLost(es, d);
    RestAgreesIff(es, d);
  }

  lemma {:induction false} NotLost(es: seq<Event>, d: DocId)
    requires forall k :: 0 <= k < |es| ==> !TakesAway(RunFrom(EMPTY, es[..k]), es[k], d)
    ensures !Lost(EMPTY, es, d)
  {
    if es != [] {
      var front := es[..|es| - 1];
      forall k | 0 <= k < |front|
        ensures !TakesAway(RunFrom(EMPTY, front[..k]), front[k], d)
      {
        assert front[..k] == es[..k];
      }
      NotLost(front, d);
    }
  }

  // ----- before an edit, a rollback or a reindex: what the caller would have to check

  /** Every live embed of d that may still write carries text x, and one that has just written left x. */
  ghost predicate AllCarry(s: Sys, d: DocId, x: string) {
    forall t :: 0 <= t < |s.embeds| && LiveOn(s, t, d) ==>
      && (MayUpsert(s, t) ==> s.embeds[t].content == x)
      && (s.embeds[t].stage == Upserted ==> d in s.vectors && s.vectors[d] == x)
  }

  /** A complete row has its vector. */
  ghost predicate RowAgrees(s: Sys, d: DocId) {
    d in s.rows && s.rows[d].status == Complete ==> d in s.vectors && s.vectors[d] == s.rows[d].content
  }

  lemma CoherentMeaning(s: Sys, d: DocId)
    requires Present(s, d)
    ensures Coherent(s, d) <==> AllCarry(s, d, Target(s, d)) && (d !in s.open ==> RowAgrees(s, d))
  {
    if AllCarry(s, d, Target(s, d)) {
      forall t | 0 <= t < |s.embeds|
        ensures EmbedCoherent(s, t, d)
      {
      }
    }
    if Coherent(s, d) {
      forall t | 0 <= t < |s.embeds| && LiveOn(s, t, d)
        ensures MayUpsert(s, t) ==> s.embeds[t].content == Target(s, d)
        ensures s.embeds[t].stage == Upserted ==> d in s.vectors && s.vectors[d] == Target(s, d)
      {
        assert EmbedCoherent(s, t, d);
      }
    }
  }

  /** Two states with the same vectors, and the same embeds of d but for new ones carrying x. */
  lemma AllCarrySame(s: Sys, s': Sys, d: DocId, x: string)
    requires s'.vectors == s.vectors && s.embeds <= s'.embeds
    requires forall t :: |s.embeds| <= t < |s'.embeds| ==> s'.embeds[t].stage == Queued && s'.embeds[t].content == x
    ensures AllCarry(s', d, x) <==> AllCarry(s, d, x)
  {
    forall t | 0 <= t < |s.embeds|
      ensures LiveOn(s', t, d) <==> LiveOn(s, t, d)
      ensures MayUpsert(s', t) <==> MayUpsert(s, t)
    {
    }
    if AllCarry(s', d, x) {
      forall t | 0 <= t < |s.embeds| && LiveOn(s, t, d)
        ensures MayUpsert(s, t) ==> s.embeds[t].content == x
        ensures s.embeds[t].stage == Upserted ==> d in s.vectors && s.vectors[d] == x
      {
        assert LiveOn(s', t, d);
      }
    }
  }

  /** An edit to text x is safe exactly if no embed in flight will write, or has just written, another text. */
  lemma EditSafeIff(s: Sys, d: DocId, x: string)
    requires WellFormed(s) && d in s.rows && d !in s.open
    ensures AgreesForever(Step(s, BeginEdit(d, x)), d) <==> AllCarry(s, d, x)
  {
    var e := BeginEdit(d, x);
    WellFormedStep(s, e);
    AgreementIffCoherent(Step(s, e), d);
    CoherentMeaning(Step(s, e), d);
    AllCarrySame(s, Step(s, e), d, x);
  }

  /**
   A rollback is safe exactly if a complete row has its vector, and no embed in flight will write,
   or has just written, another text than the row's. A product whose creation is rolled back has
   no row and nothing to disagree with.
   */
  lemma RollbackSafeIff(s: Sys, d: DocId)
    requires WellFormed(s)
    ensures AgreesForever(Step(s, Rollback(d)), d) <==>
            (d in s.rows ==> RowAgrees(s, d) && AllCarry(s, d, s.rows[d].content))
  {
    var e := Rollback(d);
    WellFormedStep(s, e);
    AgreementIffCoherent(Step(s, e), d);
    if d in s.rows {
      CoherentMeaning(Step(s, e), d);
      AllCarrySame(s, Step(s, e), d, s.rows[d].content);
    }
  }

  /**
   A reindex is safe exactly if the document is, and no edit to another text is open: the reindex
   embeds the committed text.
   */
  lemma ReindexSafeIff(s: Sys, d: DocId)
    requires WellFormed(s) && d in s.rows
    ensures AgreesForever(Step(s, Reindex(d)), d) <==>
            && AllCarry(s, d, s.rows[d].content)
            && if d in s.open then s.open[d].content == s.rows[d].content else RowAgrees(s, d)
  {
    var e, x := Reindex(d), s.rows[d].content;
    var u := Step(s, e);
    WellFormedStep(s, e);
    AgreementIffCoherent(u, d);
    CoherentMeaning(u, d);
    AllCarrySame(s, u, d, x);
    assert LiveOn(u, |s.embeds|, d) && MayUpsert(u, |s.embeds|) && u.embeds[|s.embeds|].content == x;
  }

  // ----- two ways out of order

  lemma Snoc(s: Sys, es: seq<Event>, u: Sys, e: Event) returns (fs: seq<Event>)
    requires RunFrom(s, es) == u
    ensures fs == es + [e] && RunFrom(s, fs) == Step(u, e)
  {
    fs := es + [e];
    assert fs[..|es|] == es;
  }

  /** A product created with text a; its first embed is at some stage. */
  function Created(a: string, status: Status, vectors: map<DocId, string>, stage: Stage): Sys {
    Sys(map[0 := Row(a, status)], map[], vectors, [Embed(0, a, Local(true), stage)], {0}, {})
  }

  lemma CreateProduct(a: string) returns (es: seq<Event>)
    ensures es == [BeginCreate(0, a), Commit(0)]
    ensures RunFrom(EMPTY, es) == Created(a, Pending, map[], Queued)
  {
    var s1 := Step(EMPTY, BeginCreate(0, a));
    es := Snoc(EMPTY, [], EMPTY, BeginCreate(0, a));
    es := Snoc(EMPTY, es, s1, Commit(0));
    assert Step(s1, Commit(0)).open == map[];
  }

  /** The same product edited to text b, both embeds still to come. */
  function Edited(a: string, b: string, vectors: map<DocId, string>, status: Status, p: Stage, q: Stage): Sys {
    Sys(map[0 := Row(b, status)], map[], vectors, [Embed(0, a, Local(true), p), Embed(0, b, Local(true), q)], {0}, {})
  }

  lemma EditProduct(a: string, b: string) returns (es: seq<Event>)
    ensures es == [BeginCreate(0, a), Commit(0), BeginEdit(0, b), Commit(0)]
    ensures RunFrom(EMPTY, es) == Edited(a, b, map[], Indexed, Queued, Queued)
  {
    es := CreateProduct(a);
    var s2 := Created(a, Pending, map[], Queued);
    var s3 := Step(s2, BeginEdit(0, b));
    es := Snoc(EMPTY, es, s2, BeginEdit(0, b));
    es := Snoc(EMPTY, es, s3, Commit(0));
    assert Step(s3, Commit(0)).open == map[];
  }

  lemma EditedBegins(a: string, b: string)
    ensures Step(Edited(a, b, map[], Indexed, Queued, Queued), Begin(0)) ==
            Edited(a, b, map[], Indexed, Upserting, Queued)
    ensures Step(Edited(a, b, map[], Indexed, Upserting, Queued), Begin(1)) ==
            Edited(a, b, map[], Indexed, Upserting, Upserting)
  {
  }

  lemma EditedSecondWrites(a: string, b: string)
    ensures Step(Edited(a, b, map[], Indexed, Upserting, Upserting), Upsert(1, true)) ==
            Edited(a, b, map[0 := b], Indexed, Upserting, Upserted)
    ensures Step(Edited(a, b, map[0 := b], Indexed, Upserting, Upserted), Finish(1, true)) ==
            Edited(a, b, map[0 := b], Complete, Upserting, Over)
  {
  }

  lemma EditedFirstWrites(a: string, b: string)
    ensures Step(Edited(a, b, map[0 := b], Complete, Upserting, Over), Upsert(0, true)) ==
            Edited(a, b, map[0 := a], Complete, Upserted, Over)
    ensures Step(Edited(a, b, map[0 := a], Complete, Upserted, Over), Finish(0, true)) ==
            Edited(a, b, map[0 := a], Complete, Over, Over)
  {
  }

  /** Two embeds of one product that finish in the wrong order leave a complete but stale vector. */
  lemma OverlapGoesStale(a: string, b: string) returns (es: seq<Event>)
    ensures es == [BeginCreate(0, a), Commit(0), BeginEdit(0, b), Commit(0), Begin(0), Begin(1),
                   Upsert(1, true), Finish(1, true), Upsert(0, true), Finish(0, true)]
    ensures RunFrom(EMPTY, es) == Edited(a, b, map[0 := a], Complete, Over, Over)
    ensures a != b ==> !Agrees(RunFrom(EMPTY, es), 0)
  {
    es := EditProduct(a, b);
    EditedBegins(a, b);
    EditedSecondWrites(a, b);
    EditedFirstWrites(a, b);
    es := Snoc(EMPTY, es, Edited(a, b, map[], Indexed, Queued, Queued), Begin(0));
    es := Snoc(EMPTY, es, Edited(a, b, map[], Indexed, Upserting, Queued), Begin(1));
    es := Snoc(EMPTY, es, Edited(a, b, map[], Indexed, Upserting, Upserting), Upsert(1, true));
    es := Snoc(EMPTY, es, Edited(a, b, map[0 := b], Indexed, Upserting, Upserted), Finish(1, true));
    es := Snoc(EMPTY, es, Edited(a, b, map[0 := b], Complete, Upserting, Over), Upsert(0, true));
    es := Snoc(EMPTY, es, Edited(a, b, map[0 := a], Complete, Upserted, Over), Finish(0, true));
  }

  lemma CreatedStages(a: string)
    ensures Step(Created(a, Pending, map[], Queued), Begin(0)) == Created(a, Pending, map[], Upserting)
    ensures Step(Created(a, Pending, map[], Upserting), Upsert(0, true)) == Created(a, Pending, map[0 := a], Upserted)
  {
  }

  lemma CreatedFinish(a: string)
    ensures Step(Created(a, Pending, map[0 := a], Upserted), Finish(0, true)) == Created(a, Complete, map[0 := a], Over)
  {
  }

  lemma EmbedProduct(a: string) returns (es: seq<Event>)
    ensures es == [BeginCreate(0, a), Commit(0), Begin(0), Upsert(0, true), Finish(0, true)]
    ensures RunFrom(EMPTY, es) == Created(a, Complete, map[0 := a], Over)
  {
    es := CreateProduct(a);
    CreatedStages(a);
    CreatedFinish(a);
    es := Snoc(EMPTY, es, Created(a, Pending, map[], Queued), Begin(0));
    es := Snoc(EMPTY, es, Created(a, Pending, map[], Upserting), Upsert(0, true));
    es := Snoc(EMPTY, es, Created(a, Pending, map[0 := a], Upserted), Finish(0, true));
  }

  /**
   Why `CompleteHasVector` leaves them out: recreating the collection, and beginning a deletion, take
   the vector of a complete document away.
   */
  lemma VectorTakenAway(a: string) returns (es: seq<Event>)
    ensures RunFrom(EMPTY, es) == Created(a, Complete, map[0 := a], Over)
    ensures forall e :: e in [Recreate, BeginDelete(0, true)] ==>
              var s := Step(RunFrom(EMPTY, es), e);
              0 in s.rows && s.rows[0].status == Complete && 0 !in s.vectors
  {
    es := EmbedProduct(a);
  }

  /** An embedded product with an edit that is open or not, whose embed is at stage q. */
  function Editing(a: string, b: string, open: map<DocId, Draft>, vectors: map<DocId, string>, q: Stage): Sys {
    Sys(map[0 := Row(a, Complete)], open, vectors,
        [Embed(0, a, Local(true), Over), Embed(0, b, Local(true), q)], {0}, {})
  }

  lemma EditEmbedRollback(a: string, b: string, before: seq<Event>) returns (es: seq<Event>)
    requires RunFrom(EMPTY, before) == Created(a, Complete, map[0 := a], Over)
    ensures es == before + [BeginEdit(0, b)] + [Begin(1)] + [Upsert(1, true)] + [Rollback(0)]
    ensures RunFrom(EMPTY, es) == Editing(a, b, map[], map[0 := b], Upserted)
  {
    var draft := map[0 := Draft(b, false)];
    es := Snoc(EMPTY, before, Created(a, Complete, map[0 := a], Over), BeginEdit(0, b));
    es := Snoc(EMPTY, es, Editing(a, b, draft, map[0 := a], Queued), Begin(1));
    es := Snoc(EMPTY, es, Editing(a, b, draft, map[0 := a], Upserting), Upsert(1, true));
    es := Snoc(EMPTY, es, Editing(a, b, draft, map[0 := b], Upserted), Rollback(0));
    assert draft - {0} == map[];
  }

  lemma EditedFails(a: string, b: string)
    ensures Step(Editing(a, b, map[0 := Draft(b, false)], map[0 := a], Queued), Commit(0)) ==
            Unwritten(a, b, Queued)
    ensures Step(Unwritten(a, b, Queued), Begin(1)) == Unwritten(a, b, Upserting)
    ensures Step(Unwritten(a, b, Upserting), Upsert(1, false)) == Unwritten(a, b, Failing)
    ensures Step(Unwritten(a, b, Failing), MarkFailed(1, true)) == Unwritten(a, b, Over)
  {
  }

  /** The product edited from a to b, the second embed at stage q and the vector still that of a. */
  function Unwritten(a: string, b: string, q: Stage): Sys {
    Edited(a, b, map[0 := a], Indexed, Over, q)
  }

  /** An edit whose upsert fails rests as `Indexed`, with the vector of the old text. */
  lemma FailedUpsertGoesStale(a: string, b: string) returns (es: seq<Event>)
    ensures es == [BeginCreate(0, a), Commit(0), Begin(0), Upsert(0, true), Finish(0, true),
                   BeginEdit(0, b), Commit(0), Begin(1), Upsert(1, false), MarkFailed(1, true)]
    ensures RunFrom(EMPTY, es) == Unwritten(a, b, Over) && Quiet(RunFrom(EMPTY, es), 0)
    ensures a != b ==> !VectorFits(RunFrom(EMPTY, es), 0)
  {
    es := EmbedProduct(a);
    EditedFails(a, b);
    es := Snoc(EMPTY, es, Created(a, Complete, map[0 := a], Over), BeginEdit(0, b));
    es := Snoc(EMPTY, es, Editing(a, b, map[0 := Draft(b, false)], map[0 := a], Queued), Commit(0));
    es := Snoc(EMPTY, es, Unwritten(a, b, Queued), Begin(1));
    es := Snoc(EMPTY, es, Unwritten(a, b, Upserting), Upsert(1, false));
    es := Snoc(EMPTY, es, Unwritten(a, b, Failing), MarkFailed(1, true));
  }

  /** A product not committed yet, its embed at some stage. */
  function Creating(a: string, vectors: map<DocId, string>, stage: Stage): Sys {
    Sys(map[], map[0 := Draft(a, true)], vectors, [Embed(0, a, Local(true), stage)], {0}, {})
  }

  /** A product whose embed ends before its creation commits has its vector, and rests as `Pending`. */
  lemma EarlyEmbedStaysPending(a: string) returns (es: seq<Event>)
    ensures es == [BeginCreate(0, a), Begin(0), Upsert(0, true), Finish(0, true), Commit(0)]
    ensures RunFrom(EMPTY, es) == Created(a, Pending, map[0 := a], Over)
    ensures Quiet(RunFrom(EMPTY, es), 0) && VectorFits(RunFrom(EMPTY, es), 0)
  {
    CreatingStages(a);
    es := Snoc(EMPTY, [], EMPTY, BeginCreate(0, a));
    es := Snoc(EMPTY, es, Creating(a, map[], Queued), Begin(0));
    es := Snoc(EMPTY, es, Creating(a, map[], Upserting), Upsert(0, true));
    es := Snoc(EMPTY, es, Creating(a, map[0 := a], Upserted), Finish(0, true));
    es := Snoc(EMPTY, es, Creating(a, map[0 := a], Over), Commit(0));
  }

  lemma CreatingStages(a: string)
    ensures Step(EMPTY, BeginCreate(0, a)) == Creating(a, map[], Queued)
    ensures Step(Creating(a, map[], Queued), Begin(0)) == Creating(a, map[], Upserting)
    ensures Step(Creating(a, map[], Upserting), Upsert(0, true)) == Creating(a, map[0 := a], Upserted)
    ensures Step(Creating(a, map[0 := a], Upserted), Finish(0, true)) == Creating(a, map[0 := a], Over)
    ensures Step(Creating(a, map[0 := a], Over), Commit(0)) == Created(a, Pending, map[0 := a], Over)
  {
  }

  /** An edit rolled back after its embed wrote leaves the vector of a text that was never committed. */
  lemma RollbackGoesStale(a: string, b: string) returns (es: seq<Event>)
    requires a != b
    ensures es == [BeginCreate(0, a), Commit(0), Begin(0), Upsert(0, true), Finish(0, true),
                   BeginEdit(0, b), Begin(1), Upsert(1, true), Rollback(0)]
    ensures !Agrees(RunFrom(EMPTY, es), 0)
  {
    var before := EmbedProduct(a);
    es := EditEmbedRollback(a, b, before);
  }

  // ----- the endpoints and the embed task, each run without interruption

  const REINDEX_LIMIT := 200

  datatype UploadError = TooLarge | NoText

  /** The four steps of an undisturbed embed, whichever of its calls succeed. */
  function EmbedSteps(s: Sys, t: nat, upsertOk: bool, updateOk: bool, markOk: bool): Sys {
    var written := Step(Step(s, Begin(t)), Upsert(t, upsertOk));
    Step(Step(written, Finish(t, updateOk)), MarkFailed(t, markOk))
  }

  predicate Startable(s: Sys, t: nat) {
    AtStage(s, t, Queued) && s.embeds[t].kind.Local? && !Blocked(s, s.embeds[t].doc)
  }

  /** An unforced embed of a document that has a vector is skipped. */
  predicate Skips(s: Sys, t: nat)
    requires t < |s.embeds|
  {
    s.embeds[t].kind == Local(false) && s.embeds[t].doc in s.vectors
  }

  lemma SetStageTwice(s: Sys, t: nat, p: Stage, q: Stage)
    requires t < |s.embeds|
    ensures SetStage(SetStage(s, t, p), t, q) == SetStage(s, t, q)
  {
  }

  lemma SkipSteps(s: Sys, t: nat, upsertOk: bool, updateOk: bool, markOk: bool)
    requires Startable(s, t) && Skips(s, t)
    ensures EmbedSteps(s, t, upsertOk, updateOk, markOk) == SetStage(s, t, Over)
  {
    var over := SetStage(s, t, Over);
    assert AtStage(over, t, Over);
    assert Step(s, Begin(t)) == over;
  }

  /** The embed has written and its task goes on to the row. */
  function Written(s: Sys, t: nat, stage: Stage): Sys
    requires t < |s.embeds|
  {
    SetStage(s, t, stage).(vectors := s.vectors[s.embeds[t].doc := s.embeds[t].content])
  }

  lemma WriteSteps(s: Sys, t: nat)
    requires Startable(s, t) && !Skips(s, t)
    ensures Step(Step(s, Begin(t)), Upsert(t, true)) == Written(s, t, Upserted)
    ensures Step(Step(s, Begin(t)), Upsert(t, false)) == SetStage(s, t, Failing)
  {
    assert Step(s, Begin(t)) == SetStage(s, t, Upserting);
    SetStageTwice(s, t, Upserting, Upserted);
    SetStageTwice(s, t, Upserting, Failing);
  }

  lemma FinishSteps(s: Sys, t: nat, markOk: bool)
    requires Startable(s, t)
    ensures var w := Written(s, t, Upserted);
            Step(Step(w, Finish(t, true)), MarkFailed(t, markOk)) ==
            SetStatus(Written(s, t, Over), s.embeds[t].doc, Complete)
  {
    var w := Written(s, t, Upserted);
    SetStageTwice(s, t, Upserted, Over);
    assert Step(w, Finish(t, true)) == SetStatus(Written(s, t, Over), s.embeds[t].doc, Complete);
  }

  /** After a failure the row is marked failed if it is pending. */
  function Marked(s: Sys, doc: DocId, markOk: bool): Sys {
    if markOk && doc in s.rows && s.rows[doc].status == Pending then SetStatus(s, doc, Failed) else s
  }

  lemma UpdateFailsSteps(s: Sys, t: nat, markOk: bool)
    requires Startable(s, t)
    ensures var w := Written(s, t, Upserted);
            Step(Step(w, Finish(t, false)), MarkFailed(t, markOk)) ==
            Marked(Written(s, t, Over), s.embeds[t].doc, markOk)
  {
    var w := Written(s, t, Upserted);
    SetStageTwice(s, t, Upserted, Failing);
    SetStageTwice(s, t, Failing, Over);
    assert Step(w, Finish(t, false)) == Written(s, t, Failing);
  }

  lemma UpsertFailsSteps(s: Sys, t: nat, updateOk: bool, markOk: bool)
    requires Startable(s, t)
    ensures var w := SetStage(s, t, Failing);
            Step(Step(w, Finish(t, updateOk)), MarkFailed(t, markOk)) ==
            Marked(SetStage(s, t, Over), s.embeds[t].doc, markOk)
  {
    var w := SetStage(s, t, Failing);
    SetStageTwice(s, t, Failing, Over);
    assert Step(w, Finish(t, updateOk)) == w;
  }

  function ReindexAll(s: Sys, docs: seq<DocId>): Sys {
    if docs == [] then s else Step(ReindexAll(s, docs[..|docs| - 1]), Reindex(docs[|docs| - 1]))
  }

  lemma ReindexNext(s: Sys, docs: seq<DocId>, n: nat)
    requires n < |docs| && ReindexAll(s, docs[..n]).rows == s.rows && docs[n] in s.rows
    ensures ReindexAll(s, docs[..n + 1]) ==
            Spawn(ReindexAll(s, docs[..n]), docs[n], s.rows[docs[n]].content, Local(true))
  {
    assert docs[..n + 1][..n] == docs[..n];
  }

  /** One queued, forced embed per document, with its committed text. */
  function ForcedEmbeds(rows: map<DocId, Row>, docs: seq<DocId>): (r: seq<Embed>)
    requires forall d :: d in docs ==> d in rows
    ensures |r| == |docs|
    ensures forall i :: 0 <= i < |docs| ==> r[i] == Embed(docs[i], rows[docs[i]].content, Local(true), Queued)
  {
    seq(|docs|, i requires 0 <= i < |docs| => Embed(docs[i], rows[docs[i]].content, Local(true), Queued))
  }

  lemma ForcedNext(rows: map<DocId, Row>, docs: seq<DocId>, n: nat)
    requires n < |docs| && forall d :: d in docs ==> d in rows
    ensures ForcedEmbeds(rows, docs[..n + 1]) ==
            ForcedEmbeds(rows, docs[..n]) + [Embed(docs[n], rows[docs[n]].content, Local(true), Queued)]
  {
  }

  class KnowledgeBase {
    var rows: map<DocId, Row>
    var open: map<DocId, Draft>
    var vectors: map<DocId, string>
    var embeds: seq<Embed>
    var used: set<DocId>
    var deleting: set<DocId>

    function State(): Sys
      reads this
    {
      Sys(rows, open, vectors, embeds, used, deleting)
    }

    constructor ()
      ensures State() == EMPTY
    {
      rows, open, vectors, embeds, used, deleting := map[], map[], map[], [], {}, {};
    }

    /** `doc` is the fresh id of the new row; `blank` says the extracted text is only white space. */
    method UploadDocument(doc: DocId, size: nat, maxBytes: nat, content: string, blank: bool, celery: bool)
      returns (r: Result<DocId, UploadError>)
      requires doc !in used
      modifies this
      ensures r == if size > maxBytes then Err(TooLarge) else if blank then Err(NoText) else Ok(doc)
      ensures State() == if r.Ok? then Step(old(State()), Upload(doc, content, celery)) else old(State())
      ensures r.Ok? ==> Working(State(), doc)
      ensures r.Ok? ==>
                && rows == old(rows)[doc := Row(content, Indexed)]
                && embeds == old(embeds) + [Embed(doc, content, if celery then Celery else Local(false), Queued)]
    {
      if size > maxBytes {
        return Err(TooLarge);
      }
      if blank {
        return Err(NoText);
      }
      rows := rows[doc := Row(content, Pending)];
      rows := rows[doc := Row(content, Indexed)];
      used := used + {doc};
      embeds := embeds + [Embed(doc, content, if celery then Celery else Local(false), Queued)];
      r := Ok(doc);
    }

    /** `_sync_kb_entry` up to its return: the write is not committed yet. */
    method SyncKbEntry(existing: Option<DocId>, unused: DocId, content: string) returns (doc: DocId)
      requires unused !in used
      requires existing.Some? && existing.value in rows ==> existing.value !in open
      modifies this
      ensures doc == if existing.Some? && existing.value in old(rows) then existing.value else unused
      ensures State() == Step(old(State()), if existing.Some? && existing.value in old(rows)
                                            then BeginEdit(existing.value, content) else BeginCreate(unused, content))
      ensures open == old(open)[doc := Draft(content, !(existing.Some? && existing.value in old(rows)))]
      ensures embeds == old(embeds) + [Embed(doc, content, Local(true), Queued)]
      ensures rows == old(rows) && vectors == old(vectors)
    {
      if existing.Some? && existing.value in rows {
        doc := existing.value;
        open := open[doc := Draft(content, false)];
      } else {
        doc := unused;
        used := used + {doc};
        open := open[doc := Draft(content, true)];
      }
      embeds := embeds + [Embed(doc, content, Local(true), Queued)];
    }

    /** `_embed_document` from start to end; the flags say which of its three calls succeed. */
    method EmbedDocument(t: nat, upsertOk: bool, updateOk: bool, markOk: bool)
      requires Startable(State(), t)
      modifies this
      ensures State() == EmbedSteps(old(State()), t, upsertOk, updateOk, markOk)
      ensures embeds == old(embeds)[t := old(embeds[t]).(stage := Over)]
      ensures var e := old(embeds[t]);
              if e.kind == Local(false) && e.doc in old(vectors) then vectors == old(vectors) && rows == old(rows)
              else
                && vectors == (if upsertOk then old(vectors)[e.doc := e.content] else old(vectors))
                && rows ==
                   if e.doc !in old(rows) then old(rows)
                   else if upsertOk && updateOk then old(rows)[e.doc := Row(old(rows)[e.doc].content, Complete)]
                   else if markOk && old(rows)[e.doc].status == Pending
                        then old(rows)[e.doc := Row(old(rows)[e.doc].content, Failed)]
                   else old(rows)
    {
      ghost var s := State();
      var e := embeds[t];
      embeds := embeds[t := e.(stage := Over)];
      if !e.kind.force && e.doc in vectors {
        SkipSteps(s, t, upsertOk, updateOk, markOk);
        return;
      }
      WriteSteps(s, t);
      if upsertOk {
        FinishSteps(s, t, markOk);
        UpdateFailsSteps(s, t, markOk);
        vectors := vectors[e.doc := e.content];
        if updateOk {
          if e.doc in rows {
            rows := rows[e.doc := rows[e.doc].(status := Complete)];
          }
          return;
        }
      } else {
        UpsertFailsSteps(s, t, updateOk, markOk);
      }
      if markOk && e.doc in rows && rows[e.doc].status == Pending {
        rows := rows[e.doc := rows[e.doc].(status := Failed)];
      }
    }

    /** `reindex_knowledge`: `found` are the tenant's documents with a text, newest first. */
    method ReindexKnowledge(found: seq<DocId>) returns (queued: nat)
      requires forall d :: d in found ==> d in rows
      modifies this
      ensures queued == if |found| <= REINDEX_LIMIT then |found| else REINDEX_LIMIT
      ensures State() == ReindexAll(old(State()), found[..queued])
      ensures |embeds| == |old(embeds)| + queued
      ensures rows == old(rows) && vectors == old(vectors)
      ensures embeds == old(embeds) + ForcedEmbeds(rows, found[..queued])
    {
      var docs := if |found| <= REINDEX_LIMIT then found else found[..REINDEX_LIMIT];
      queued := |docs|;
      for n := 0 to |docs|
        invariant State() == ReindexAll(old(State()), docs[..n])
        invariant rows == old(rows) && vectors == old(vectors)
        invariant embeds == old(embeds) + ForcedEmbeds(rows, docs[..n])
      {
        ReindexNext(old(State()), docs, n);
        ForcedNext(rows, docs, n);
        embeds := embeds + [Embed(docs[n], rows[docs[n]].content, Local(true), Queued)];
      }
      assert docs[..|docs|] == docs;
    }

    /**
     `delete_document`: the vector first, a failing vector store being ignored, then the row; the
     commit at the end of the request may fail.
     */
    method DeleteDocument(doc: DocId, vectorOk: bool, commitOk: bool) returns (found: bool)
      requires doc !in open
      modifies this
      ensures found <==> doc in old(rows)
      ensures !found ==> State() == old(State())
      ensures found ==>
                var begun := Step(old(State()), BeginDelete(doc, vectorOk));
                State() == if commitOk then Step(begun, EndDelete(doc)) else begun
      ensures commitOk ==> doc !in rows
      ensures found ==>
                && vectors == (if vectorOk then old(vectors) - {doc} else old(vectors))
                && rows == (if commitOk then old(rows) - {doc} else old(rows))
                && embeds == old(embeds) && open == old(open)
    {
      if doc !in rows {
        return false;
      }
      if vectorOk {
        vectors := vectors - {doc};
      }
      deleting := deleting + {doc};
      if commitOk {
        rows := rows - {doc};
      }
      found := true;
    }
  }
}
