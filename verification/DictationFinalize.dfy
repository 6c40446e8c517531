/**
 * What a finalize request names, and what the server has of it.  An append that commits between
 * the drain and the request is named without having been uploaded.
 */
module DictationFinalize {
  import opened Prelude
  import opened DictationStore
  import opened DictationWorld
  import opened DictationInvariant
  import opened DictationTheorems
  import opened DictationLookalike

  lemma OtherStepsKeepTheMark(w: World, s: Step, t: nat)
    requires Enabled(w, s) && !s.Commit? && s != Drain(t) && t in w.tabs && t in Effect(w, s).tabs
    ensures Effect(w, s).tabs[t].drained == w.tabs[t].drained
  {
  }

  /** A tab's `drained` mark moves only when a finishing flush finds its store empty, and then to the session's cursor. */
  lemma OnlyADrainMarks(w: World, s: Step, t: nat)
    requires t in w.tabs && t in Do(w, s).tabs && Do(w, s).tabs[t].drained != w.tabs[t].drained
    ensures s == Drain(t) && InSession(w, t)
    ensures var d := w.tabs[t].draft.value;
            Do(w, s).tabs[t].drained == d.nextChunkIndex && Stored(w.db, d.id) == map[]
  {
    if s.Commit? {
      CommitOnlyWrites(w, s.t, s.now);
    } else if s != Drain(t) {
      OtherStepsKeepTheMark(w, s, t);
    }
  }

  /** The server has taken chunk `i` of the recording. */
  predicate Accepted(w: World, id: string, i: nat) {
    id in w.server && i < |w.server[id]|
  }

  /**
   * Of every finalize request in the network of any run the server has the chunks below the drain
   * mark; a request sent without an append since the drain names no others.
   */
  lemma DrainedChunksAreAccepted(epoch: string, steps: seq<Step>, id: string, last: int, drained: nat)
    requires (id, last, drained) in Run(Fresh(epoch), steps).finals
    ensures var w := Run(Fresh(epoch), steps);
            && id in w.recorded && drained <= last + 1 <= |w.recorded[id]|
            && (forall i: nat :: i < drained ==> Accepted(w, id, i))
            && (drained == last + 1 ==> forall i: nat :: i <= last ==> Accepted(w, id, i))
  {
    FreshIsConsistent(epoch);
    RunKeepsConsistent(Fresh(epoch), steps);
    assert MessagesOk(Run(Fresh(epoch), steps));
  }

  // ---------------------------------------------------------------------------
  // When a session can be sure
  // ---------------------------------------------------------------------------

  /** The server has every chunk a finalize request of `t` would name now. */
  ghost predicate NamesOnlyAccepted(w: World, t: nat) {
    InSession(w, t) && forall i: nat :: i < w.tabs[t].draft.value.nextChunkIndex ==> Accepted(w, w.tabs[t].draft.value.id, i)
  }

  /** The server has the whole recording. */
  predicate HasWhole(w: World, id: string) {
    id in w.server && id in w.recorded && w.server[id] == w.recorded[id]
  }

  /** Nothing of the session's draft is stored that a finalize request would name. */
  predicate NothingPending(db: Db, d: Draft) {
    forall i :: i in Stored(db, d.id) ==> i >= d.nextChunkIndex
  }

  lemma NothingPendingIsAccepted(w: World, t: nat)
    requires Consistent(w) && InSession(w, t)
    requires var d := w.tabs[t].draft.value; d.id in w.db.drafts && NothingPending(w.db, d)
    ensures NamesOnlyAccepted(w, t)
  {
    var d := w.tabs[t].draft.value;
    assert TabOk(w, w.tabs[t]) && DraftOk(w, d.id);
    forall i: nat | i < d.nextChunkIndex
      ensures Accepted(w, d.id, i)
    {
      assert i !in Stored(w.db, d.id);
    }
  }

  lemma SureIfNothingPending(epoch: string, steps: seq<Step>, t: nat, other: seq<Step>)
    requires var w := Run(Fresh(epoch), steps);
             InSession(w, t) && w.tabs[t].draft.value.id in w.db.drafts && NothingPending(w.db, w.tabs[t].draft.value)
    requires LooksSame(Run(Fresh(epoch), steps), Run(Fresh(epoch), other))
    ensures NamesOnlyAccepted(Run(Fresh(epoch), other), t)
  {
    FreshIsConsistent(epoch);
    RunKeepsConsistent(Fresh(epoch), other);
    NothingPendingIsAccepted(Run(Fresh(epoch), other), t);
  }

  lemma UnsureIfPending(epoch: string, steps: seq<Step>, t: nat) returns (other: seq<Step>)
    requires var w := Run(Fresh(epoch), steps); InSession(w, t) && !NothingPending(w.db, w.tabs[t].draft.value)
    ensures LooksSame(Run(Fresh(epoch), steps), Run(Fresh(epoch), other))
    ensures !NamesOnlyAccepted(Run(Fresh(epoch), other), t)
  {
    var w := Run(Fresh(epoch), steps);
    var d := w.tabs[t].draft.value;
    var i: nat :| i in Stored(w.db, d.id) && i < d.nextChunkIndex;
    other := StoredChunkMayBeUnaccepted(epoch, steps, d.id, i);
    assert !Accepted(Run(Fresh(epoch), other), d.id, i);
  }

  /**
   * A session whose draft is still in the store can be sure that the server has all a finalize
   * request would name exactly when no such chunk is stored any more: in every run that leaves the
   * browser in the same state the server has them then, and otherwise in some such run it has not.
   */
  lemma FinalizeIsSafeIffNothingPending(epoch: string, steps: seq<Step>, t: nat)
    requires var w := Run(Fresh(epoch), steps); InSession(w, t) && w.tabs[t].draft.value.id in w.db.drafts
    ensures var w := Run(Fresh(epoch), steps);
            && (forall other :: LooksSame(w, Run(Fresh(epoch), other)) ==> NamesOnlyAccepted(Run(Fresh(epoch), other), t)) <==>
               NothingPending(w.db, w.tabs[t].draft.value)
  {
    var w := Run(Fresh(epoch), steps);
    if NothingPending(w.db, w.tabs[t].draft.value) {
      forall other | LooksSame(w, Run(Fresh(epoch), other))
        ensures NamesOnlyAccepted(Run(Fresh(epoch), other), t)
      {
        SureIfNothingPending(epoch, steps, t, other);
      }
    } else {
      var other := UnsureIfPending(epoch, steps, t);
    }
  }

  /** For the lease holder the chunks named are the recording, and nothing pending is nothing stored. */
  lemma HolderNamesEverything(w: World, t: nat)
    requires Consistent(w) && InSession(w, t)
    requires var d := w.tabs[t].draft.value; Holds(w.db, d.id, d.generation)
    ensures var d := w.tabs[t].draft.value;
            && d.id in w.recorded && d.nextChunkIndex == |w.recorded[d.id]|
            && (NamesOnlyAccepted(w, t) <==> HasWhole(w, d.id))
            && (NothingPending(w.db, d) <==> Stored(w.db, d.id) == map[])
  {
    var d := w.tabs[t].draft.value;
    assert TabOk(w, w.tabs[t]) && DraftOk(w, d.id) && ChunksOk(w, d.id);
    assert w.server[d.id] <= w.recorded[d.id];
    if d.nextChunkIndex > 0 {
      assert NamesOnlyAccepted(w, t) ==> Accepted(w, d.id, d.nextChunkIndex - 1);
    }
    assert NothingPending(w.db, d) ==> Stored(w.db, d.id) == map[];
  }

  /**
   * A tab that finalizes while it holds the lease names the last chunk recorded, and can be sure
   * that the server has the whole recording exactly when nothing of its draft is stored.
   */
  lemma LeaseHolderFinalizesEverythingIff(epoch: string, steps: seq<Step>, t: nat)
    requires var w := Run(Fresh(epoch), steps);
             Enabled(w, SendFinalize(t)) && Holds(w.db, w.tabs[t].draft.value.id, w.tabs[t].draft.value.generation)
    ensures var w := Run(Fresh(epoch), steps);
            var d := w.tabs[t].draft.value;
            && d.id in w.recorded && (d.id, |w.recorded[d.id]| - 1, w.tabs[t].drained) in Do(w, SendFinalize(t)).finals
            && ((forall other :: LooksSame(w, Run(Fresh(epoch), other)) ==> HasWhole(Run(Fresh(epoch), other), d.id)) <==>
                Stored(w.db, d.id) == map[])
  {
    var w := Run(Fresh(epoch), steps);
    var d := w.tabs[t].draft.value;
    FreshIsConsistent(epoch);
    RunKeepsConsistent(Fresh(epoch), steps);
    HolderNamesEverything(w, t);
    forall other | LooksSame(w, Run(Fresh(epoch), other))
      ensures NamesOnlyAccepted(Run(Fresh(epoch), other), t) <==> HasWhole(Run(Fresh(epoch), other), d.id)
    {
      RunKeepsConsistent(Fresh(epoch), other);
      HolderNamesEverything(Run(Fresh(epoch), other), t);
    }
    FinalizeIsSafeIffNothingPending(epoch, steps, t);
  }

  // One session that appends behind its drain

  /** A world with one tab, in session on the one draft, at rest, its drain mark at zero. */
  ghost predicate Alone(w: World, d: Draft, stage: Stage, chunks: map<string, map<nat, Audio>>) {
    && w.tabs == map[0 := Tab(d.ownerId, Some(d), stage, 0, Nothing, Resting)]
    && w.db == Db(map[d.id := d], chunks)
    && w.fence == None && w.epoch == d.custodyEpoch
    && d.id in w.recorded && w.server == map[d.id := []]
  }

  lemma {:induction false} RunConcat(w: World, a: seq<Step>, b: seq<Step>)
    ensures Run(w, a + b) == Run(Run(w, a), b)
    decreases |a|
  {
    if a == [] {
      assert a + b == b;
    } else {
      assert (a + b)[1..] == a[1..] + b;
      RunConcat(Do(w, a[0]), a[1..], b);
    }
  }

  lemma RunTwo(w: World, a: Step, b: Step)
    ensures Run(w, [a, b]) == Do(Do(w, a), b)
  {
    assert [a, b][1..] == [b] && [b][1..] == [];
    assert Run(Do(w, a), [b]) == Run(Do(Do(w, a), b), []);
  }

  lemma AloneAdmitsCreation(epoch: string, ownerId: string, id: string) returns (w: World)
    ensures w == Run(Fresh(epoch), [OpenTab(0, ownerId), AdmitCreate(0, id, 0)])
    ensures var d := Draft(id, ownerId, epoch, 1, 0, 0, 0, Recording, None);
            && w.tabs == map[0 := Tab(ownerId, None, Closed, 0, Creating(d), Resting)]
            && w.db == EMPTY_DB && w.fence == None && w.epoch == epoch && w.server == map[] && w.recorded == map[]
  {
    RunTwo(Fresh(epoch), OpenTab(0, ownerId), AdmitCreate(0, id, 0));
    w := Do(Do(Fresh(epoch), OpenTab(0, ownerId)), AdmitCreate(0, id, 0));
  }

  lemma AloneCreates(w: World, d: Draft)
    requires w.tabs == map[0 := Tab(d.ownerId, None, Closed, 0, Creating(d), Resting)]
    requires w.db == EMPTY_DB && w.fence == None && w.epoch == d.custodyEpoch && w.server == map[] && w.recorded == map[]
    ensures Alone(Do(w, Commit(0, 0)), d, Live, map[])
  {
    assert Do(w, Commit(0, 0)) == CommitCreate(w, 0);
  }

  lemma AloneAdmitsPut(w: World, d: Draft, stage: Stage, phase: Phase, chunks: map<string, map<nat, Audio>>) returns (v: World)
    requires Alone(w, d, stage, chunks) && NextStage(stage, d, phase).Some? && phase != Complete
    ensures v == Do(w, AdmitPut(0, phase, "", 0))
    ensures v == WithTab(w, 0, w.tabs[0].(pending := Putting(d.(phase := phase, updatedAt := 0), NextStage(stage, d, phase).value)))
  {
    v := Do(w, AdmitPut(0, phase, "", 0));
  }

  lemma AloneCommitsPut(w: World, v: World, d: Draft, next: Draft, stage: Stage, landing: Stage, chunks: map<string, map<nat, Audio>>)
    requires Alone(w, d, stage, chunks) && v == WithTab(w, 0, w.tabs[0].(pending := Putting(next, landing)))
    requires next.id == d.id && next.ownerId == d.ownerId && next.custodyEpoch == d.custodyEpoch
    ensures Alone(CommitPut(v, 0), next, landing, chunks)
  {
  }

  lemma CommitIsPut(w: World, t: nat, now: int)
    requires InSession(w, t) && w.tabs[t].pending.Putting?
    ensures Do(w, Commit(t, now)) == CommitPut(w, t)
  {
  }

  lemma AlonePuts(w: World, d: Draft, stage: Stage, phase: Phase, chunks: map<string, map<nat, Audio>>)
    requires Alone(w, d, stage, chunks) && NextStage(stage, d, phase).Some? && phase != Complete
    ensures Alone(Run(w, [AdmitPut(0, phase, "", 0), Commit(0, 0)]), d.(phase := phase, updatedAt := 0), NextStage(stage, d, phase).value, chunks)
  {
    RunTwo(w, AdmitPut(0, phase, "", 0), Commit(0, 0));
    var v := AloneAdmitsPut(w, d, stage, phase, chunks);
    AloneCommitsPut(w, v, d, d.(phase := phase, updatedAt := 0), stage, NextStage(stage, d, phase).value, chunks);
    CommitIsPut(v, 0, 0);
  }

  lemma AloneDrains(w: World, d: Draft)
    requires Alone(w, d, Flushing, map[]) && d.nextChunkIndex == 0
    ensures Alone(Do(w, Drain(0)), d, Drained, map[])
  {
  }

  lemma AloneAppends(w: World, d: Draft, audio: Audio)
    requires Alone(w, d, Drained, map[]) && audio != []
    ensures Alone(Run(w, [AdmitAppend(0, audio, 0), Commit(0, 0)]), Appended(d, 0, 0), Drained, map[d.id := map[d.nextChunkIndex := audio]])
  {
    RunTwo(w, AdmitAppend(0, audio, 0), Commit(0, 0));
    var v := Do(w, AdmitAppend(0, audio, 0));
    assert v == WithTab(w, 0, w.tabs[0].(pending := Appending(audio, 0)));
    assert Do(v, Commit(0, 0)) == CommitAppend(v, 0, 0);
  }

  lemma AloneFinalizes(w: World, d: Draft, chunks: map<string, map<nat, Audio>>)
    requires Alone(w, d, Finishing, chunks)
    ensures var v := Do(w, SendFinalize(0)); (d.id, d.nextChunkIndex - 1, 0) in v.finals && v.server == w.server
  {
  }

  /** Open, create, begin to finish, and drain at once. */
  function DrainedAtOnce(ownerId: string, id: string): seq<Step> {
    [OpenTab(0, ownerId), AdmitCreate(0, id, 0)] + [Commit(0, 0)] + [AdmitPut(0, Uploading, "", 0), Commit(0, 0)] + [Drain(0)]
  }

  /** Append, and finalize. */
  function AppendedBehind(audio: Audio): seq<Step> {
    [AdmitAppend(0, audio, 0), Commit(0, 0)] + [AdmitPut(0, Finalizing, "", 0), Commit(0, 0)] + [SendFinalize(0)]
  }

  lemma DrainsAtOnce(epoch: string, ownerId: string, id: string)
    ensures Alone(Run(Fresh(epoch), DrainedAtOnce(ownerId, id)), Draft(id, ownerId, epoch, 1, 0, 0, 0, Uploading, None), Drained, map[])
  {
    var d := Draft(id, ownerId, epoch, 1, 0, 0, 0, Recording, None);
    var created, uploading := [OpenTab(0, ownerId), AdmitCreate(0, id, 0)], [AdmitPut(0, Uploading, "", 0), Commit(0, 0)];
    var w := Fresh(epoch);
    RunConcat(w, created, [Commit(0, 0)]);
    RunConcat(w, created + [Commit(0, 0)], uploading);
    RunConcat(w, created + [Commit(0, 0)] + uploading, [Drain(0)]);
    var w1 := AloneAdmitsCreation(epoch, ownerId, id);
    AloneCreates(w1, d);
    var w2 := Run(w1, [Commit(0, 0)]);
    AlonePuts(w2, d, Live, Uploading, map[]);
    AloneDrains(Run(w2, uploading), d.(phase := Uploading, updatedAt := 0));
  }

  lemma AppendsBehind(w: World, d: Draft, audio: Audio)
    requires Alone(w, d, Drained, map[]) && audio != [] && d.nextChunkIndex == 0
    ensures var v := Run(w, AppendedBehind(audio)); (d.id, 0, 0) in v.finals && v.server == map[d.id := []]
  {
    var late, finalizing := [AdmitAppend(0, audio, 0), Commit(0, 0)], [AdmitPut(0, Finalizing, "", 0), Commit(0, 0)];
    RunConcat(w, late, finalizing);
    RunConcat(w, late + finalizing, [SendFinalize(0)]);
    AloneAppends(w, d, audio);
    var d2, chunks := Appended(d, 0, 0), map[d.id := map[0 := audio]];
    AlonePuts(Run(w, late), d2, Drained, Finalizing, chunks);
    AloneFinalizes(Run(w, late + finalizing), d2.(phase := Finalizing, updatedAt := 0), chunks);
  }

  /** The code does get there: finalize names a chunk the server does not have, for every account, draft and audio. */
  lemma LateAppendIsNamedUnaccepted(epoch: string, ownerId: string, id: string, audio: Audio)
    requires audio != []
    ensures var w := Run(Fresh(epoch), DrainedAtOnce(ownerId, id) + AppendedBehind(audio));
            (id, 0, 0) in w.finals && !Accepted(w, id, 0)
  {
    RunConcat(Fresh(epoch), DrainedAtOnce(ownerId, id), AppendedBehind(audio));
    DrainsAtOnce(epoch, ownerId, id);
    AppendsBehind(Run(Fresh(epoch), DrainedAtOnce(ownerId, id)), Draft(id, ownerId, epoch, 1, 0, 0, 0, Uploading, None), audio);
  }
}
