/** What the dictation world guarantees over every run: no audio is lost, and leases are exclusive. */
module DictationTheorems {
  import opened Prelude
  import opened DictationStore
  import opened DictationWorld
  import opened DictationInvariant

  /** Local storage, every recovery and every drain mark are as before, and no draft is gone. */
  ghost predicate OnlyWrites(w: World, v: World) {
    && v.epoch == w.epoch && v.epochs == w.epochs && v.fence == w.fence && v.raised == w.raised
    && v.tabs.Keys == w.tabs.Keys
    && (forall u :: u in w.tabs ==> v.tabs[u].recovery == w.tabs[u].recovery && v.tabs[u].drained == w.tabs[u].drained)
    && w.db.drafts.Keys <= v.db.drafts.Keys
  }

  lemma CreateOnlyWrites(w: World, t: nat)
    requires t in w.tabs && w.tabs[t].pending.Creating?
    ensures OnlyWrites(w, CommitCreate(w, t))
  {
  }

  lemma ClaimOnlyWrites(w: World, t: nat, now: int)
    requires t in w.tabs && w.tabs[t].pending.Claiming?
    ensures OnlyWrites(w, CommitClaim(w, t, now))
  {
  }

  lemma AppendOnlyWrites(w: World, t: nat, now: int)
    requires InSession(w, t) && w.tabs[t].pending.Appending?
    ensures OnlyWrites(w, CommitAppend(w, t, now))
  {
  }

  lemma PutOnlyWrites(w: World, t: nat)
    requires InSession(w, t) && w.tabs[t].pending.Putting?
    ensures OnlyWrites(w, CommitPut(w, t))
  {
  }

  lemma CommitOnlyWrites(w: World, t: nat, now: int)
    requires t in w.tabs
    ensures OnlyWrites(w, CommitPending(w, t, now))
  {
    match w.tabs[t].pending
    case Nothing =>
    case Creating(_) => CreateOnlyWrites(w, t);
    case Claiming(_) => ClaimOnlyWrites(w, t, now);
    case Appending(_, _) =>
      if InSession(w, t) {
        AppendOnlyWrites(w, t, now);
      }
    case Putting(_, _) =>
      if InSession(w, t) {
        PutOnlyWrites(w, t);
      }
  }

  // ---------------------------------------------------------------------------
  // No audio is lost
  // ---------------------------------------------------------------------------

  /**
   * In every reachable world, for every draft still in the store: an index lies below the cursor
   * exactly when its chunk is stored or the server has accepted it, and both copies are the
   * audio that was recorded at that index.
   */
  lemma NoAudioLost(epoch: string, steps: seq<Step>, id: string)
    requires id in Run(Fresh(epoch), steps).db.drafts
    ensures var w := Run(Fresh(epoch), steps);
            && id in w.server && id in w.recorded
            && |w.recorded[id]| == w.db.drafts[id].nextChunkIndex
            && (forall i: nat :: i < w.db.drafts[id].nextChunkIndex <==> i in Stored(w.db, id) || i < |w.server[id]|)
            && (forall i: nat :: i in Stored(w.db, id) ==> i < |w.recorded[id]| && Stored(w.db, id)[i] == w.recorded[id][i])
            && w.server[id] <= w.recorded[id]
  {
    FreshIsConsistent(epoch);
    RunKeepsConsistent(Fresh(epoch), steps);
    var w := Run(Fresh(epoch), steps);
    assert DraftOk(w, id) && ChunksOk(w, id);
  }

  /** The only ways a draft leaves the store. */
  predicate Removes(w: World, s: Step, id: string) {
    match s
    case PurgeAll => true
    case PurgeForRecovery(t) => true
    case Drop(t, x) => x == id
    case Cancel(t) => InSession(w, t) && w.tabs[t].draft.value.id == id
    case Consume(t) => InSession(w, t) && w.tabs[t].draft.value.id == id && id in w.delivered
    case _ => false
  }

  predicate MayRemove(s: Step) {
    s.PurgeAll? || s.PurgeForRecovery? || s.Drop? || s.Cancel? || s.Consume?
  }

  lemma OtherStepsKeepDrafts(w: World, s: Step)
    requires Enabled(w, s) && !s.Commit? && !MayRemove(s)
    ensures Effect(w, s).db.drafts == w.db.drafts
  {
  }

  lemma DropRemoves(w: World, t: nat, x: string, id: string)
    requires Enabled(w, Drop(t, x)) && id in w.db.drafts && id !in Effect(w, Drop(t, x)).db.drafts
    ensures x == id
  {
  }

  lemma CancelRemoves(w: World, t: nat, id: string)
    requires Enabled(w, Cancel(t)) && id in w.db.drafts && id !in Effect(w, Cancel(t)).db.drafts
    ensures w.tabs[t].draft.value.id == id
  {
  }

  lemma ConsumeRemoves(w: World, t: nat, id: string)
    requires TabsOk(w) && Enabled(w, Consume(t)) && id in w.db.drafts && id !in Effect(w, Consume(t)).db.drafts
    ensures w.tabs[t].draft.value.id == id && id in w.delivered
  {
    assert TabOk(w, w.tabs[t]) && StageOk(w, w.tabs[t], w.tabs[t].draft.value);
  }

  lemma RemovalIsOfThatDraft(w: World, s: Step, id: string)
    requires TabsOk(w) && Enabled(w, s) && MayRemove(s)
    requires id in w.db.drafts && id !in Effect(w, s).db.drafts
    ensures Removes(w, s, id)
  {
    match s
    case PurgeAll =>
    case PurgeForRecovery(_) =>
    case Drop(t, x) => DropRemoves(w, t, x, id);
    case Cancel(t) => CancelRemoves(w, t, id);
    case Consume(t) => ConsumeRemoves(w, t, id);
  }

  /** Drafts leave by a purge, a rejection at recovery, a cancel, or a consume whose delivery has committed. */
  lemma DraftsLeaveOnlyByRemoval(w: World, s: Step, id: string)
    requires Consistent(w)
    requires id in w.db.drafts && id !in Do(w, s).db.drafts
    ensures Removes(w, s, id)
  {
    if s.Commit? {
      CommitOnlyWrites(w, s.t, s.now);
    } else if MayRemove(s) {
      RemovalIsOfThatDraft(w, s, id);
    } else {
      OtherStepsKeepDrafts(w, s);
    }
  }

  // ---------------------------------------------------------------------------
  // Leases
  // ---------------------------------------------------------------------------

  /** The holder of the lease has exactly the stored record in hand, cursor included. */
  lemma HolderAgreesWithStore(w: World, t: nat)
    requires Consistent(w) && InSession(w, t)
    requires var d := w.tabs[t].draft.value; Holds(w.db, d.id, d.generation)
    ensures var d := w.tabs[t].draft.value;
            && w.db.drafts[d.id] == d
            && forall u :: u in w.tabs && u != t && w.tabs[u].draft.Some? ==>
                 w.tabs[u].draft.value.id != d.id || w.tabs[u].draft.value.generation < d.generation
  {
    LeaseIsExclusive(w, t);
  }

  /** The draft has been created, and its record, if any, is beyond generation `g`. */
  ghost predicate Overtaken(w: World, id: string, g: int) {
    id in w.recorded && (id in w.db.drafts ==> w.db.drafts[id].generation > g)
  }

  lemma CommitKeepsOvertaken(w: World, t: nat, now: int, id: string, g: int)
    requires Consistent(w) && Overtaken(w, id, g) && t in w.tabs
    ensures Overtaken(CommitPending(w, t, now), id, g)
  {
    assert TabOk(w, w.tabs[t]);
    if w.tabs[t].draft.Some? {
      assert DraftOk(w, w.tabs[t].draft.value.id);
    }
  }

  lemma TabStepsKeepRecordings(w: World, s: Step)
    requires Enabled(w, s) && (IsAdmission(s) || IsTabStep(s)) && !s.Commit?
    ensures Effect(w, s).recorded == w.recorded
  {
  }

  lemma OnlyCommitsRecord(w: World, s: Step)
    requires Enabled(w, s) && !s.Commit?
    ensures Effect(w, s).recorded == w.recorded
  {
    if IsAdmission(s) || IsTabStep(s) {
      TabStepsKeepRecordings(w, s);
    }
  }

  lemma RemovalKeepsTheRest(w: World, s: Step, id: string)
    requires Enabled(w, s) && MayRemove(s) && id in Effect(w, s).db.drafts
    ensures id in w.db.drafts && Effect(w, s).db.drafts[id] == w.db.drafts[id]
  {
  }

  lemma StepKeepsOvertaken(w: World, s: Step, id: string, g: int)
    requires Consistent(w) && Overtaken(w, id, g)
    ensures Overtaken(Do(w, s), id, g)
  {
    if Enabled(w, s) {
      if s.Commit? {
        CommitKeepsOvertaken(w, s.t, s.now, id, g);
      } else {
        OnlyCommitsRecord(w, s);
        if !MayRemove(s) {
          OtherStepsKeepDrafts(w, s);
        } else if id in Effect(w, s).db.drafts {
          RemovalKeepsTheRest(w, s, id);
        }
      }
    }
  }

  lemma {:induction false} RunKeepsOvertaken(w: World, steps: seq<Step>, id: string, g: int)
    requires Consistent(w) && Overtaken(w, id, g)
    ensures Overtaken(Run(w, steps), id, g) && Consistent(Run(w, steps))
    decreases |steps|
  {
    if steps != [] {
      StepKeepsConsistent(w, steps[0]);
      StepKeepsOvertaken(w, steps[0], id, g);
      RunKeepsOvertaken(Do(w, steps[0]), steps[1..], id, g);
    }
  }

  /** A write on behalf of generation `g` or earlier of this draft. */
  predicate WritesFor(w: World, s: Step, id: string, g: int) {
    match s
    case Commit(t, now) =>
      && t in w.tabs
      && (w.tabs[t].pending.Appending? || w.tabs[t].pending.Putting? ==>
            w.tabs[t].draft.Some? && w.tabs[t].draft.value.id == id && w.tabs[t].draft.value.generation <= g)
      && (w.tabs[t].pending.Claiming? ==>
            w.tabs[t].pending.candidate.id == id && w.tabs[t].pending.candidate.generation <= g)
      && !w.tabs[t].pending.Creating?
    case Consume(t) => InSession(w, t) && w.tabs[t].draft.value.id == id && w.tabs[t].draft.value.generation <= g
    case Cancel(t) => InSession(w, t) && w.tabs[t].draft.value.id == id && w.tabs[t].draft.value.generation <= g
    case _ => false
  }

  /**
   * Once the record has moved past generation `g`, through any further run no append, phase
   * change, completion, claim or compare-and-delete of a holder of `g` or older changes the store.
   */
  lemma OvertakenHoldersNeverWrite(w: World, steps: seq<Step>, s: Step, id: string, g: int)
    requires Consistent(w) && Overtaken(w, id, g)
    requires WritesFor(Run(w, steps), s, id, g)
    ensures Do(Run(w, steps), s).db == Run(w, steps).db
  {
    RunKeepsOvertaken(w, steps, id, g);
  }

  /** A committed claim is what overtakes: the claimant holds the next generation and nobody older is left. */
  lemma ClaimOvertakes(w: World, t: nat, now: int)
    requires Consistent(w) && t in w.tabs && w.tabs[t].pending.Claiming?
    requires Claimable(w.db, w.tabs[t].pending.candidate)
    ensures var d := w.tabs[t].pending.candidate;
            var v := Do(w, Commit(t, now));
            && Overtaken(v, d.id, d.generation)
            && v.tabs[t].draft == Some(v.db.drafts[d.id])
            && v.db.drafts[d.id].generation == d.generation + 1
  {
    var d := w.tabs[t].pending.candidate;
    assert DraftOk(w, d.id);
  }

  // ---------------------------------------------------------------------------
  // Why a session awaits each store call
  // ---------------------------------------------------------------------------

  /**
   * The compare-and-set looks at the generation alone.  If one session put a second append of
   * its unrefreshed copy behind the first, both would commit, and the later would replace the
   * earlier one's chunk: the store ends with one chunk where two were recorded.
   */
  lemma OverlappingAppendsLoseAudio(db: Db, d: Draft, first: Audio, second: Audio, durationMs: int, now: int)
    requires Holds(db, d.id, d.generation) && first != second
    ensures var once := AppendTxn(db, d, first, durationMs, now);
            var twice := AppendTxn(once, d, second, durationMs, now);
            && Holds(twice, d.id, d.generation)
            && twice.drafts[d.id].nextChunkIndex == d.nextChunkIndex + 1
            && Stored(twice, d.id) == Stored(db, d.id)[d.nextChunkIndex := second]
            && Stored(once, d.id)[d.nextChunkIndex] != Stored(twice, d.id)[d.nextChunkIndex]
  {
  }
}
