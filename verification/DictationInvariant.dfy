/** Every step of the dictation world keeps its invariant. */
module DictationInvariant {
  import opened Prelude
  import opened DictationStore
  import opened DictationWorld

  // ---------------------------------------------------------------------------
  // What one step does to the shared state, as seen by a tab
  // ---------------------------------------------------------------------------

  /** Histories and messages only grow. */
  ghost predicate Grows(w: World, v: World) {
    && w.used <= v.used
    && w.epochs <= v.epochs
    && w.raised <= v.raised
    && w.delivered <= v.delivered
    && (forall id :: id in w.recorded ==> id in v.recorded && w.recorded[id] <= v.recorded[id])
    && (forall id :: id in w.born ==> id in v.born && v.born[id] == w.born[id])
    && (forall id :: id in w.server ==> id in v.server && |w.server[id]| <= |v.server[id]|)
  }

  /** A tab sees a record disappear, stay, or move on to a later state it does not hold the lease of. */
  ghost predicate Sees(w: World, v: World, tab: Tab) {
    && (tab.draft.Some? && tab.draft.value.id in v.db.drafts ==>
          var d := tab.draft.value;
          && d.id in w.db.drafts
          && (v.db.drafts[d.id] == w.db.drafts[d.id] || d.generation < v.db.drafts[d.id].generation))
    && (tab.pending.Creating? ==> tab.pending.created.id !in v.recorded)
  }

  lemma TabStaysOk(w: World, v: World, tab: Tab)
    requires TabOk(w, tab) && Grows(w, v) && Sees(w, v, tab)
    ensures TabOk(v, tab)
  {
    if tab.draft.Some? {
      var d := tab.draft.value;
      assert CopyOk(v, tab.ownerId, d);
      assert StageOk(v, tab, d);
    }
    assert RecoveryOk(v, tab);
    assert PendingOk(v, tab);
  }

  ghost predicate SameShared(w: World, v: World) {
    v == w.(tabs := v.tabs)
  }

  lemma SameSharedStaysOk(w: World, v: World)
    requires SharedOk(w) && SameShared(w, v)
    ensures SharedOk(v)
  {
    forall id
      ensures DraftOk(v, id) && ChunksOk(v, id)
    {
      assert DraftOk(w, id) && ChunksOk(w, id);
    }
  }

  /** A step that changes shared state and at most the tab `t`. */
  lemma OthersStayOk(w: World, v: World, t: nat)
    requires TabsOk(w) && Grows(w, v)
    requires t in v.tabs && v.tabs == w.tabs[t := v.tabs[t]]
    requires forall u :: u in w.tabs && u != t ==> Sees(w, v, w.tabs[u])
    requires TabOk(v, v.tabs[t])
    requires forall u :: u in w.tabs && u != t ==> Apart(v.tabs[t], w.tabs[u])
    ensures TabsOk(v)
  {
    forall u | u in v.tabs
      ensures TabOk(v, v.tabs[u])
    {
      if u != t {
        TabStaysOk(w, v, w.tabs[u]);
      }
    }
  }

  /** A step that changes shared state and no tab. */
  lemma AllStayOk(w: World, v: World)
    requires TabsOk(w) && Grows(w, v) && v.tabs == w.tabs
    requires forall u :: u in w.tabs ==> Sees(w, v, w.tabs[u])
    ensures TabsOk(v)
  {
    forall u | u in v.tabs
      ensures TabOk(v, v.tabs[u])
    {
      TabStaysOk(w, v, w.tabs[u]);
    }
  }

  // ---------------------------------------------------------------------------
  // Steps that change one tab only
  // ---------------------------------------------------------------------------

  lemma OneTabStep(w: World, t: nat, tab: Tab)
    requires SharedOk(w) && TabsOk(w) && TabOk(w, tab)
    requires forall u :: u in w.tabs && u != t ==> Apart(tab, w.tabs[u])
    ensures SharedOk(WithTab(w, t, tab)) && TabsOk(WithTab(w, t, tab))
  {
    var v := WithTab(w, t, tab);
    SameSharedStaysOk(w, v);
    assert forall u :: u in w.tabs ==> Sees(w, v, w.tabs[u]) by {
      forall u | u in w.tabs
        ensures Sees(w, v, w.tabs[u])
      {
        assert TabOk(w, w.tabs[u]);
      }
    }
    assert Sees(w, v, tab);
    TabStaysOk(w, v, tab);
    OthersStayOk(w, v, t);
  }

  /** The tab keeps its lease, and creates no draft it was not creating. */
  predicate SameLease(a: Tab, b: Tab) {
    && (a.draft.Some? <==> b.draft.Some?)
    && (a.draft.Some? ==> a.draft.value.id == b.draft.value.id && a.draft.value.generation == b.draft.value.generation)
    && (b.pending.Creating? ==> b.pending == a.pending)
  }

  lemma SameLeaseStep(w: World, t: nat, tab: Tab)
    requires SharedOk(w) && TabsOk(w) && t in w.tabs && SameLease(w.tabs[t], tab) && TabOk(w, tab)
    ensures SharedOk(WithTab(w, t, tab)) && TabsOk(WithTab(w, t, tab))
  {
    SameLeaseStaysApart(w, t, tab);
    OneTabStep(w, t, tab);
  }

  lemma AdmitClaimKeepsOk(w: World, t: nat, candidate: Draft)
    requires Consistent(w) && Enabled(w, AdmitClaim(t, candidate))
    ensures Consistent(Effect(w, AdmitClaim(t, candidate)))
  {
    var tab := w.tabs[t];
    assert TabOk(w, tab);
    SameLeaseStep(w, t, tab.(pending := Claiming(candidate)));
  }

  lemma AdmitAppendKeepsOk(w: World, t: nat, audio: Audio, durationMs: int)
    requires Consistent(w) && Enabled(w, AdmitAppend(t, audio, durationMs))
    ensures Consistent(Effect(w, AdmitAppend(t, audio, durationMs)))
  {
    var tab := w.tabs[t];
    assert TabOk(w, tab);
    SameLeaseStep(w, t, tab.(pending := Appending(audio, durationMs)));
  }

  lemma AdmitPutKeepsOk(w: World, t: nat, phase: Phase, transcript: string, now: int)
    requires Consistent(w) && Enabled(w, AdmitPut(t, phase, transcript, now))
    ensures Consistent(Effect(w, AdmitPut(t, phase, transcript, now)))
  {
    var tab := w.tabs[t];
    var d := tab.draft.value;
    assert TabOk(w, tab);
    SameLeaseStep(w, t, tab.(pending := Putting(DraftAfterPut(d, phase, transcript, now), NextStage(tab.stage, d, phase).value)));
  }

  lemma FinishRecoveredKeepsOk(w: World, t: nat)
    requires Consistent(w) && Enabled(w, FinishRecovered(t))
    ensures Consistent(Effect(w, FinishRecovered(t)))
  {
    var tab := w.tabs[t];
    assert TabOk(w, tab);
    SameLeaseStep(w, t, tab.(stage := Done));
  }

  /** When nothing of a draft is stored any more, the server holds all of it. */
  lemma NothingStoredMeansCovered(w: World, id: string)
    requires DraftOk(w, id) && id in w.db.drafts && Stored(w.db, id) == map[]
    ensures |w.server[id]| >= w.db.drafts[id].nextChunkIndex
  {
    var lacking: nat := |w.server[id]|;
    assert lacking < w.db.drafts[id].nextChunkIndex ==> lacking in Stored(w.db, id);
  }

  lemma DrainKeepsOk(w: World, t: nat)
    requires Consistent(w) && Enabled(w, Drain(t))
    ensures Consistent(Effect(w, Drain(t)))
  {
    var tab := w.tabs[t];
    var d := tab.draft.value;
    assert TabOk(w, tab) && DraftOk(w, d.id);
    if Holds(w.db, d.id, d.generation) {
      NothingStoredMeansCovered(w, d.id);
    }
    SameLeaseStep(w, t, tab.(stage := Drained, drained := d.nextChunkIndex));
  }

  lemma OpenTabKeepsOk(w: World, t: nat, ownerId: string)
    requires Consistent(w) && Enabled(w, OpenTab(t, ownerId))
    ensures Consistent(Effect(w, OpenTab(t, ownerId)))
  {
    var tab := Tab(ownerId, None, Closed, 0, Nothing, Resting);
    assert TabOk(w, tab);
    OneTabStep(w, t, tab);
  }

  lemma RecoveryMoves(w: World, t: nat, recovery: Recovery)
    requires SharedOk(w) && TabsOk(w) && t in w.tabs && RecoveryOk(w, w.tabs[t].(recovery := recovery))
    ensures var v := WithTab(w, t, w.tabs[t].(recovery := recovery)); SharedOk(v) && TabsOk(v)
  {
    assert TabOk(w, w.tabs[t]);
    SameLeaseStep(w, t, w.tabs[t].(recovery := recovery));
  }

  lemma ReadFenceKeepsOk(w: World, t: nat)
    requires Consistent(w) && Enabled(w, ReadFence(t))
    ensures Consistent(Effect(w, ReadFence(t)))
  {
    RecoveryMoves(w, t, if w.fence.Some? then Purging(w.fence.value) else Scanning);
  }

  lemma ScanKeepsOk(w: World, t: nat)
    requires Consistent(w) && Enabled(w, Scan(t))
    ensures Consistent(Effect(w, Scan(t)))
  {
    forall d | d in w.db.drafts.Values
      ensures d.custodyEpoch in w.epochs
    {
      var id :| id in w.db.drafts && w.db.drafts[id] == d;
      assert DraftOk(w, id);
    }
    RecoveryMoves(w, t, Scanned(w.db.drafts.Values));
  }

  lemma PartitionKeepsOk(w: World, t: nat, now: int)
    requires Consistent(w) && Enabled(w, Partition(t, now))
    ensures Consistent(Effect(w, Partition(t, now)))
  {
    var found := w.tabs[t].recovery.found;
    assert TabOk(w, w.tabs[t]);
    RecoveryMoves(w, t, Offering(
      set d | d in found && Admissible(d, w.tabs[t].ownerId, now, w.epoch),
      set d | d in found && !Admissible(d, w.tabs[t].ownerId, now, w.epoch) :: d.id));
  }

  lemma CrashKeepsOk(w: World, t: nat)
    requires Consistent(w) && Enabled(w, CrashTab(t))
    ensures Consistent(Effect(w, CrashTab(t)))
  {
    var v := w.(tabs := w.tabs - {t});
    SameSharedStaysOk(w, v);
    forall u | u in v.tabs
      ensures TabOk(v, v.tabs[u])
    {
      assert TabOk(w, w.tabs[u]);
      TabStaysOk(w, v, w.tabs[u]);
    }
  }

  // ---------------------------------------------------------------------------
  // Steps that add to a history or to local storage
  // ---------------------------------------------------------------------------

  lemma AllSee(w: World, v: World)
    requires v.db == w.db && v.recorded == w.recorded && TabsOk(w)
    ensures forall u :: u in w.tabs ==> Sees(w, v, w.tabs[u])
  {
    forall u | u in w.tabs
      ensures Sees(w, v, w.tabs[u])
    {
      assert TabOk(w, w.tabs[u]);
    }
  }

  lemma SharedGrowthKeepsDrafts(w: World, v: World)
    requires SharedOk(w)
    requires v.db == w.db && v.recorded == w.recorded && v.born == w.born
    requires forall id :: id in w.server ==> id in v.server && |w.server[id]| <= |v.server[id]|
    ensures forall id :: DraftOk(v, id)
    ensures forall id :: ChunksOk(v, id)
  {
    forall id
      ensures DraftOk(v, id) && ChunksOk(v, id)
    {
      assert DraftOk(w, id) && ChunksOk(w, id);
    }
  }

  /** Growth of histories, messages or local storage that leaves database, recordings and tabs alone. */
  lemma GrowthKeepsOk(w: World, v: World)
    requires SharedOk(w) && TabsOk(w) && Grows(w, v)
    requires v.db == w.db && v.recorded == w.recorded && v.born == w.born && v.tabs == w.tabs
    requires HistoryOk(v) && MessagesOk(v)
    ensures SharedOk(v) && TabsOk(v)
  {
    SharedGrowthKeepsDrafts(w, v);
    AllSee(w, v);
    AllStayOk(w, v);
  }

  lemma UploadKeepsOk(w: World, t: nat, index: nat)
    requires Consistent(w) && Enabled(w, Upload(t, index))
    ensures Consistent(Effect(w, Upload(t, index)))
  {
    var id := w.tabs[t].draft.value.id;
    var v := w.(sent := w.sent + {(id, index, Stored(w.db, id)[index])});
    assert ChunksOk(w, id);
    GrowthKeepsOk(w, v);
  }

  lemma NewFinalKeepsOk(w: World, v: World, id: string, last: int, drained: nat)
    requires Consistent(w) && v == w.(finals := w.finals + {(id, last, drained)})
    requires id in w.server && id in w.recorded && drained <= |w.server[id]| && drained <= last + 1 <= |w.recorded[id]|
    ensures Consistent(v)
  {
    GrowthKeepsOk(w, v);
  }

  lemma FinishingIsDrained(w: World, tab: Tab)
    requires TabOk(w, tab) && tab.draft.Some? && tab.stage == Finishing
    ensures var d := tab.draft.value;
            && d.id in w.server && d.id in w.recorded
            && tab.drained <= |w.server[d.id]| && tab.drained <= d.nextChunkIndex <= |w.recorded[d.id]|
  {
  }

  lemma SendFinalizeKeepsOk(w: World, t: nat)
    requires Consistent(w) && Enabled(w, SendFinalize(t))
    ensures Consistent(Effect(w, SendFinalize(t)))
  {
    var d := w.tabs[t].draft.value;
    FinishingIsDrained(w, w.tabs[t]);
    NewFinalKeepsOk(w, Effect(w, SendFinalize(t)), d.id, d.nextChunkIndex - 1, w.tabs[t].drained);
  }

  lemma AcceptedStaysRecorded(w: World, id: string, index: nat, audio: Audio)
    requires HistoryOk(w) && MessagesOk(w) && (id, index, audio) in w.sent && id in w.server && index == |w.server[id]|
    ensures w.server[id] + [audio] <= w.recorded[id]
  {
    assert w.server[id] <= w.recorded[id];
  }

  lemma ReceiveKeepsOk(w: World, id: string, index: nat, audio: Audio)
    requires Consistent(w) && Enabled(w, Receive(id, index, audio))
    ensures Consistent(Effect(w, Receive(id, index, audio)))
  {
    AcceptedStaysRecorded(w, id, index, audio);
    GrowthKeepsOk(w, w.(server := w.server[id := w.server[id] + [audio]]));
  }

  lemma DeliverKeepsOk(w: World, t: nat)
    requires Consistent(w) && Enabled(w, Deliver(t))
    ensures Consistent(Effect(w, Deliver(t)))
  {
    var tab := w.tabs[t];
    var mid := w.(delivered := w.delivered + {tab.draft.value.id});
    GrowthKeepsOk(w, mid);
    assert TabOk(mid, tab);
    SameLeaseStep(mid, t, tab.(stage := HandedOver));
  }

  lemma AdmitCreateKeepsOk(w: World, t: nat, id: string, now: int)
    requires Consistent(w) && Enabled(w, AdmitCreate(t, id, now))
    ensures Consistent(Effect(w, AdmitCreate(t, id, now)))
  {
    var tab := w.tabs[t];
    var mid := w.(used := w.used + {id});
    GrowthKeepsOk(w, mid);
    assert TabOk(mid, tab);
    var next := tab.(pending := Creating(Draft(id, tab.ownerId, w.epoch, 1, now, 0, 0, Recording, None)));
    forall u | u in w.tabs && u != t
      ensures Apart(next, w.tabs[u])
    {
      assert TabOk(w, w.tabs[u]);
    }
    OneTabStep(mid, t, next);
  }

  // ---------------------------------------------------------------------------
  // Steps that remove drafts or acknowledged chunks
  // ---------------------------------------------------------------------------

  /** The database lost some drafts, each with all its chunks, and kept the rest. */
  ghost predicate Lost(w: World, v: World) {
    && v.db.drafts.Keys <= w.db.drafts.Keys
    && (forall id :: id in v.db.drafts ==> v.db.drafts[id] == w.db.drafts[id] && Stored(v.db, id) == Stored(w.db, id))
    && (forall id :: id in v.db.chunks ==> id in v.db.drafts && id in w.db.chunks)
    && v.recorded == w.recorded && v.born == w.born && v.server == w.server
    && v.sent == w.sent && v.acks == w.acks && v.finals == w.finals
    && v.used == w.used && v.epochs == w.epochs && v.raised == w.raised && v.epoch == w.epoch && v.delivered == w.delivered
    && (v.fence == w.fence || v.fence == None)
  }

  lemma LossKeepsShared(w: World, v: World)
    requires SharedOk(w) && Lost(w, v)
    ensures SharedOk(v)
  {
    forall id
      ensures DraftOk(v, id) && ChunksOk(v, id)
    {
      assert DraftOk(w, id) && ChunksOk(w, id);
      if id in v.db.chunks {
        assert v.db.chunks[id] == Stored(v.db, id) == Stored(w.db, id) == w.db.chunks[id];
      }
    }
  }

  lemma LossIsSeen(w: World, v: World)
    requires TabsOk(w) && Lost(w, v)
    ensures forall u :: u in w.tabs ==> Sees(w, v, w.tabs[u])
  {
    forall u | u in w.tabs
      ensures Sees(w, v, w.tabs[u])
    {
      assert TabOk(w, w.tabs[u]);
    }
  }

  lemma DeleteLoses(db: Db, id: string, generation: Option<int>)
    ensures var after := DeleteTxn(db, id, generation);
            && after.drafts.Keys <= db.drafts.Keys
            && (forall x :: x in after.drafts ==> after.drafts[x] == db.drafts[x] && Stored(after, x) == Stored(db, x))
            && (forall x :: x in after.chunks ==> x in db.chunks)
            && (forall x :: x in after.chunks && x !in after.drafts ==> x !in db.drafts)
  {
  }

  lemma LossKeepsOk(w: World, v: World)
    requires SharedOk(w) && TabsOk(w) && Lost(w, v) && v.tabs == w.tabs
    ensures SharedOk(v) && TabsOk(v)
  {
    LossKeepsShared(w, v);
    LossIsSeen(w, v);
    AllStayOk(w, v);
  }

  /** The database after deleting one draft, or all of them. */
  lemma DeletionKeepsOk(w: World, id: string, generation: Option<int>)
    requires SharedOk(w) && TabsOk(w)
    ensures var v := w.(db := DeleteTxn(w.db, id, generation)); SharedOk(v) && TabsOk(v)
  {
    DeleteLoses(w.db, id, generation);
    assert forall x :: x in w.db.chunks ==> ChunksOk(w, x);
    LossKeepsOk(w, w.(db := DeleteTxn(w.db, id, generation)));
  }

  lemma PurgeKeepsOk(w: World)
    requires SharedOk(w) && TabsOk(w)
    ensures var v := w.(db := EMPTY_DB); SharedOk(v) && TabsOk(v)
  {
    LossKeepsOk(w, w.(db := EMPTY_DB));
  }

  lemma CloseAfterDelete(w: World, t: nat)
    requires SharedOk(w) && TabsOk(w) && InSession(w, t)
    ensures var d := w.tabs[t].draft.value;
            var v := WithTab(w.(db := DeleteTxn(w.db, d.id, Some(d.generation))), t, w.tabs[t].(stage := Closed));
            SharedOk(v) && TabsOk(v)
  {
    var tab := w.tabs[t];
    var d := tab.draft.value;
    DeletionKeepsOk(w, d.id, Some(d.generation));
    var mid := w.(db := DeleteTxn(w.db, d.id, Some(d.generation)));
    assert TabOk(mid, tab);
    SameLeaseStep(mid, t, tab.(stage := Closed));
  }

  lemma AcknowledgedDraftOk(w: World, acked: string, through: int, id: string)
    requires DraftOk(w, id) && ChunksOk(w, id) && acked in w.server && through < |w.server[acked]|
    ensures var v := w.(db := AcknowledgeTxn(w.db, acked, through)); DraftOk(v, id) && ChunksOk(v, id)
  {
    var v := w.(db := AcknowledgeTxn(w.db, acked, through));
    if id in w.db.drafts {
      forall i: nat | |w.server[id]| <= i < w.db.drafts[id].nextChunkIndex
        ensures i in Stored(v.db, id)
      {
        assert i in Stored(w.db, id);
      }
    }
  }

  lemma AcknowledgeKeepsOk(w: World, t: nat, through: int)
    requires Consistent(w) && Enabled(w, Acknowledge(t, through))
    ensures Consistent(Effect(w, Acknowledge(t, through)))
  {
    var acked := w.tabs[t].draft.value.id;
    var v := w.(db := AcknowledgeTxn(w.db, acked, through));
    assert (acked, through) in w.acks;
    forall id
      ensures DraftOk(v, id) && ChunksOk(v, id)
    {
      assert DraftOk(w, id) && ChunksOk(w, id);
      AcknowledgedDraftOk(w, acked, through, id);
    }
    forall u | u in w.tabs
      ensures Sees(w, v, w.tabs[u])
    {
      assert TabOk(w, w.tabs[u]);
    }
    AllStayOk(w, v);
  }

  // ---------------------------------------------------------------------------
  // Commits
  // ---------------------------------------------------------------------------

  /** A transaction that found itself superseded only tells its tab. */
  lemma RefusedCommitKeepsOk(w: World, t: nat, stage: Stage)
    requires SharedOk(w) && TabsOk(w) && t in w.tabs
    requires stage == w.tabs[t].stage || stage == Closed || stage == GaveUp
    ensures var v := WithTab(w, t, w.tabs[t].(stage := stage, pending := Nothing)); SharedOk(v) && TabsOk(v)
  {
    assert TabOk(w, w.tabs[t]);
    SameLeaseStep(w, t, w.tabs[t].(stage := stage, pending := Nothing));
  }

  /** Only the record of `id` changed, and the lease moved on or stayed with the tab that changed it. */
  ghost predicate RecordWritten(w: World, v: World, t: nat, id: string) {
    && id in w.db.drafts && id in v.db.drafts
    && v.db.drafts == w.db.drafts[id := v.db.drafts[id]]
    && forall u :: u in w.tabs && u != t && w.tabs[u].draft.Some? && w.tabs[u].draft.value.id == id ==>
         w.tabs[u].draft.value.generation < v.db.drafts[id].generation
  }

  lemma RecordWriteIsSeen(w: World, v: World, t: nat, id: string)
    requires TabsOk(w) && RecordWritten(w, v, t, id) && v.recorded.Keys == w.recorded.Keys
    ensures forall u :: u in w.tabs && u != t ==> Sees(w, v, w.tabs[u])
  {
    forall u | u in w.tabs && u != t
      ensures Sees(w, v, w.tabs[u])
    {
      assert TabOk(w, w.tabs[u]);
    }
  }

  /** No other tab holds the lease the tab `t` holds. */
  lemma LeaseIsExclusive(w: World, t: nat)
    requires TabsOk(w) && InSession(w, t)
    requires var d := w.tabs[t].draft.value; Holds(w.db, d.id, d.generation)
    ensures var d := w.tabs[t].draft.value;
            && w.db.drafts[d.id] == d
            && forall u :: u in w.tabs && u != t && w.tabs[u].draft.Some? && w.tabs[u].draft.value.id == d.id ==>
                 w.tabs[u].draft.value.generation < d.generation
  {
    var d := w.tabs[t].draft.value;
    assert TabOk(w, w.tabs[t]);
    forall u | u in w.tabs && u != t && w.tabs[u].draft.Some? && w.tabs[u].draft.value.id == d.id
      ensures w.tabs[u].draft.value.generation < d.generation
    {
      assert TabOk(w, w.tabs[u]) && Apart(w.tabs[t], w.tabs[u]);
    }
  }

  lemma RecordWriteKeepsDrafts(w: World, v: World, id: string)
    requires SharedOk(w) && id in w.db.drafts && id in v.db.drafts
    requires v.db == w.db.(drafts := w.db.drafts[id := v.db.drafts[id]])
    requires v.recorded == w.recorded && v.born == w.born && v.server == w.server
    requires var r, s := w.db.drafts[id], v.db.drafts[id];
             && s.id == r.id && s.generation >= r.generation && s.nextChunkIndex == r.nextChunkIndex
             && s.ownerId == r.ownerId && s.custodyEpoch == r.custodyEpoch
    ensures forall x :: DraftOk(v, x)
    ensures forall x :: ChunksOk(v, x)
  {
    forall x
      ensures DraftOk(v, x) && ChunksOk(v, x)
    {
      assert DraftOk(w, x) && ChunksOk(w, x);
      assert Stored(v.db, x) == Stored(w.db, x);
    }
  }

  /** A draft nobody has recorded yet has neither record nor chunks. */
  lemma UnusedIdHasNothing(w: World, id: string)
    requires SharedOk(w) && id !in w.recorded
    ensures id !in w.db.drafts && id !in w.db.chunks && Stored(w.db, id) == map[]
  {
    assert DraftOk(w, id) && ChunksOk(w, id);
  }

  lemma NewDraftKeepsDrafts(w: World, v: World, d: Draft, x: string)
    requires SharedOk(w) && d.id !in w.recorded && d.generation == 1 && d.nextChunkIndex == 0
    requires v.db == PutTxn(w.db, d) && v.recorded == w.recorded[d.id := []] && v.server == w.server[d.id := []]
    requires v.born == w.born[d.id := (d.ownerId, d.custodyEpoch)]
    ensures DraftOk(v, x) && ChunksOk(v, x)
  {
    UnusedIdHasNothing(w, d.id);
    assert DraftOk(w, x) && ChunksOk(w, x);
    assert Stored(v.db, x) == Stored(w.db, x);
  }

  lemma NewDraftKeepsHistory(w: World, v: World, d: Draft)
    requires HistoryOk(w) && MessagesOk(w) && d.id in w.used && d.id !in w.recorded && d.custodyEpoch in w.epochs
    requires v == w.(db := v.db, recorded := w.recorded[d.id := []], server := w.server[d.id := []],
                     born := w.born[d.id := (d.ownerId, d.custodyEpoch)], tabs := v.tabs)
    ensures HistoryOk(v) && MessagesOk(v)
  {
  }

  lemma NewDraftGrows(w: World, v: World, d: Draft)
    requires HistoryOk(w) && d.id !in w.recorded
    requires v == w.(db := v.db, recorded := w.recorded[d.id := []], server := w.server[d.id := []],
                     born := w.born[d.id := (d.ownerId, d.custodyEpoch)], tabs := v.tabs)
    ensures Grows(w, v)
  {
  }

  lemma NewDraftKeepsShared(w: World, v: World, d: Draft)
    requires SharedOk(w) && d.id in w.used && d.id !in w.recorded
    requires d.generation == 1 && d.nextChunkIndex == 0 && d.custodyEpoch in w.epochs
    requires v == w.(db := PutTxn(w.db, d), recorded := w.recorded[d.id := []], server := w.server[d.id := []],
                     born := w.born[d.id := (d.ownerId, d.custodyEpoch)], tabs := v.tabs)
    ensures SharedOk(v)
  {
    forall x
      ensures DraftOk(v, x) && ChunksOk(v, x)
    {
      NewDraftKeepsDrafts(w, v, d, x);
    }
    NewDraftKeepsHistory(w, v, d);
  }

  lemma CommitCreateIsSeen(w: World, t: nat, u: nat)
    requires SharedOk(w) && TabsOk(w) && t in w.tabs && u in w.tabs && u != t && w.tabs[t].pending.Creating?
    ensures Sees(w, CommitCreate(w, t), w.tabs[u]) && Apart(CommitCreate(w, t).tabs[t], w.tabs[u])
  {
    assert TabOk(w, w.tabs[t]) && TabOk(w, w.tabs[u]) && Apart(w.tabs[t], w.tabs[u]);
  }

  lemma CommitCreateKeepsOk(w: World, t: nat)
    requires SharedOk(w) && TabsOk(w) && t in w.tabs && w.tabs[t].pending.Creating?
    ensures SharedOk(CommitCreate(w, t)) && TabsOk(CommitCreate(w, t))
  {
    var v := CommitCreate(w, t);
    assert TabOk(w, w.tabs[t]);
    NewDraftKeepsShared(w, v, w.tabs[t].pending.created);
    NewDraftGrows(w, v, w.tabs[t].pending.created);
    forall u | u in w.tabs && u != t
      ensures Sees(w, v, w.tabs[u]) && Apart(v.tabs[t], w.tabs[u])
    {
      CommitCreateIsSeen(w, t, u);
    }
    assert TabOk(v, v.tabs[t]);
    OthersStayOk(w, v, t);
  }

  lemma CommitClaimKeepsOk(w: World, t: nat, now: int)
    requires SharedOk(w) && TabsOk(w) && t in w.tabs && w.tabs[t].pending.Claiming?
    ensures SharedOk(CommitClaim(w, t, now)) && TabsOk(CommitClaim(w, t, now))
  {
    var tab, d := w.tabs[t], w.tabs[t].pending.candidate;
    if !Claimable(w.db, d) {
      RefusedCommitKeepsOk(w, t, tab.stage);
    } else {
      var v := CommitClaim(w, t, now);
      var claimed := Claimed(w.db, d, now);
      assert TabOk(w, tab);
      assert DraftOk(w, d.id);
      RecordWriteKeepsDrafts(w, v, d.id);
      forall u | u in w.tabs && u != t
        ensures Apart(v.tabs[t], w.tabs[u])
        ensures w.tabs[u].draft.Some? && w.tabs[u].draft.value.id == d.id ==> w.tabs[u].draft.value.generation < claimed.generation
      {
        assert TabOk(w, w.tabs[u]);
      }
      RecordWriteIsSeen(w, v, t, d.id);
      assert TabOk(v, v.tabs[t]);
      OthersStayOk(w, v, t);
    }
  }

  lemma CommitPutKeepsOk(w: World, t: nat)
    requires SharedOk(w) && TabsOk(w) && InSession(w, t) && w.tabs[t].pending.Putting?
    ensures SharedOk(CommitPut(w, t)) && TabsOk(CommitPut(w, t))
  {
    var tab, d := w.tabs[t], w.tabs[t].draft.value;
    if !Replaceable(w.db, d) {
      RefusedCommitKeepsOk(w, t, if tab.pending.landing == Done then Closed else GaveUp);
    } else {
      var v := CommitPut(w, t);
      assert TabOk(w, tab);
      LeaseIsExclusive(w, t);
      RecordWriteKeepsDrafts(w, v, d.id);
      RecordWriteIsSeen(w, v, t, d.id);
      assert TabOk(v, v.tabs[t]);
      SameLeaseStaysApart(w, t, v.tabs[t]);
      OthersStayOk(w, v, t);
    }
  }

  /** The appended chunk joins the recording and the store at the index the cursor names. */
  lemma AppendKeepsDraft(w: World, v: World, d: Draft, audio: Audio, durationMs: int, now: int, x: string)
    requires SharedOk(w) && d.id in w.db.drafts && w.db.drafts[d.id] == d && d.id in w.recorded
    requires v.db == AppendTxn(w.db, d, audio, durationMs, now)
    requires v.recorded == w.recorded[d.id := w.recorded[d.id] + [audio]] && v.born == w.born && v.server == w.server
    ensures DraftOk(v, x) && ChunksOk(v, x)
  {
    assert DraftOk(w, x) && ChunksOk(w, x);
    if x == d.id {
      forall i: nat | |v.server[x]| <= i < v.db.drafts[x].nextChunkIndex
        ensures i in Stored(v.db, x)
      {
        assert i < d.nextChunkIndex ==> i in Stored(w.db, x);
      }
    } else {
      assert Stored(v.db, x) == Stored(w.db, x);
    }
  }

  lemma AppendKeepsHistory(w: World, v: World, id: string, audio: Audio)
    requires SharedOk(w) && id in w.recorded
    requires v == w.(db := v.db, tabs := v.tabs, recorded := w.recorded[id := w.recorded[id] + [audio]])
    ensures HistoryOk(v) && MessagesOk(v) && Grows(w, v)
  {
  }

  lemma AppendedTabOk(w: World, t: nat, now: int)
    requires SharedOk(w) && TabsOk(w) && InSession(w, t) && w.tabs[t].pending.Appending?
    requires var d := w.tabs[t].draft.value; Holds(w.db, d.id, d.generation) && d.id in w.recorded
    ensures var v := CommitAppend(w, t, now); TabOk(v, v.tabs[t])
  {
    assert TabOk(w, w.tabs[t]) && DraftOk(w, w.tabs[t].draft.value.id);
  }

  lemma CommitAppendKeepsOk(w: World, t: nat, now: int)
    requires SharedOk(w) && TabsOk(w) && InSession(w, t) && w.tabs[t].pending.Appending?
    ensures SharedOk(CommitAppend(w, t, now)) && TabsOk(CommitAppend(w, t, now))
  {
    var tab, d, p := w.tabs[t], w.tabs[t].draft.value, w.tabs[t].pending;
    if !(Holds(w.db, d.id, d.generation) && d.id in w.recorded) {
      RefusedCommitKeepsOk(w, t, tab.stage);
    } else {
      var v := CommitAppend(w, t, now);
      LeaseIsExclusive(w, t);
      forall x
        ensures DraftOk(v, x) && ChunksOk(v, x)
      {
        AppendKeepsDraft(w, v, d, p.audio, p.durationMs, now, x);
      }
      AppendKeepsHistory(w, v, d.id, p.audio);
      RecordWriteIsSeen(w, v, t, d.id);
      AppendedTabOk(w, t, now);
      SameLeaseStaysApart(w, t, v.tabs[t]);
      OthersStayOk(w, v, t);
    }
  }

  lemma SameLeaseStaysApart(w: World, t: nat, tab: Tab)
    requires TabsOk(w) && t in w.tabs && SameLease(w.tabs[t], tab)
    ensures forall u :: u in w.tabs && u != t ==> Apart(tab, w.tabs[u])
  {
    forall u | u in w.tabs && u != t
      ensures Apart(tab, w.tabs[u])
    {
      assert Apart(w.tabs[t], w.tabs[u]);
    }
  }

  lemma CommitKeepsOk(w: World, t: nat, now: int)
    requires SharedOk(w) && TabsOk(w) && t in w.tabs
    ensures SharedOk(CommitPending(w, t, now)) && TabsOk(CommitPending(w, t, now))
  {
    match w.tabs[t].pending
    case Nothing =>
    case Creating(_) => CommitCreateKeepsOk(w, t);
    case Claiming(_) => CommitClaimKeepsOk(w, t, now);
    case Appending(_, _) =>
      if InSession(w, t) {
        CommitAppendKeepsOk(w, t, now);
      }
    case Putting(_, _) =>
      if InSession(w, t) {
        CommitPutKeepsOk(w, t);
      }
  }

  // ---------------------------------------------------------------------------
  // Every step, every run
  // ---------------------------------------------------------------------------

  lemma ReplyKeepsOk(w: World, id: string)
    requires Consistent(w) && Enabled(w, Reply(id))
    ensures Consistent(Effect(w, Reply(id)))
  {
    GrowthKeepsOk(w, w.(acks := w.acks + {(id, |w.server[id]| - 1)}));
  }

  lemma DrawEpochKeepsOk(w: World, newest: string)
    requires Consistent(w) && Enabled(w, DrawEpoch(newest))
    ensures Consistent(Effect(w, DrawEpoch(newest)))
  {
    GrowthKeepsOk(w, w.(epoch := newest, epochs := w.epochs + {newest}));
  }

  lemma RaiseFenceKeepsOk(w: World, value: string)
    requires Consistent(w) && Enabled(w, RaiseFence(value))
    ensures Consistent(Effect(w, RaiseFence(value)))
  {
    GrowthKeepsOk(w, w.(fence := Some(value), raised := w.raised + {value}));
  }

  lemma SetFenceKeepsOk(w: World, fence: Option<string>)
    requires SharedOk(w) && TabsOk(w) && (fence.Some? ==> fence == w.fence)
    ensures SharedOk(w.(fence := fence)) && TabsOk(w.(fence := fence))
  {
    GrowthKeepsOk(w, w.(fence := fence));
  }

  lemma ClearFenceKeepsOk(w: World, t: nat)
    requires Consistent(w) && Enabled(w, ClearFence(t))
    ensures Consistent(Effect(w, ClearFence(t)))
  {
    var fence := if w.fence == Some(w.tabs[t].recovery.read) then None else w.fence;
    SetFenceKeepsOk(w, fence);
    RecoveryMoves(w.(fence := fence), t, Resting);
  }

  lemma PurgeForRecoveryKeepsOk(w: World, t: nat)
    requires Consistent(w) && Enabled(w, PurgeForRecovery(t))
    ensures Consistent(Effect(w, PurgeForRecovery(t)))
  {
    assert TabOk(w, w.tabs[t]);
    PurgeKeepsOk(w);
    RecoveryMoves(w.(db := EMPTY_DB), t, Purged(w.tabs[t].recovery.read));
  }

  predicate IsAdmission(s: Step) {
    s.AdmitCreate? || s.AdmitClaim? || s.AdmitAppend? || s.AdmitPut?
  }

  lemma AdmissionKeepsOk(w: World, s: Step)
    requires Consistent(w) && Enabled(w, s) && IsAdmission(s)
    ensures Consistent(Effect(w, s))
  {
    match s
    case AdmitCreate(t, id, now) => AdmitCreateKeepsOk(w, t, id, now);
    case AdmitClaim(t, candidate) => AdmitClaimKeepsOk(w, t, candidate);
    case AdmitAppend(t, audio, durationMs) => AdmitAppendKeepsOk(w, t, audio, durationMs);
    case AdmitPut(t, phase, transcript, now) => AdmitPutKeepsOk(w, t, phase, transcript, now);
  }

  predicate IsTabStep(s: Step) {
    s.OpenTab? || s.CrashTab? || s.Commit? || s.FinishRecovered? || s.Drain?
  }

  lemma TabStepKeepsOk(w: World, s: Step)
    requires Consistent(w) && Enabled(w, s) && IsTabStep(s)
    ensures Consistent(Effect(w, s))
  {
    match s
    case OpenTab(t, ownerId) => OpenTabKeepsOk(w, t, ownerId);
    case CrashTab(t) => CrashKeepsOk(w, t);
    case Commit(t, now) => CommitKeepsOk(w, t, now);
    case FinishRecovered(t) => FinishRecoveredKeepsOk(w, t);
    case Drain(t) => DrainKeepsOk(w, t);
  }

  predicate IsNetworkStep(s: Step) {
    s.Upload? || s.Receive? || s.Reply? || s.Acknowledge? || s.SendFinalize?
  }

  lemma NetworkStepKeepsOk(w: World, s: Step)
    requires Consistent(w) && Enabled(w, s) && IsNetworkStep(s)
    ensures Consistent(Effect(w, s))
  {
    match s
    case Upload(t, index) => UploadKeepsOk(w, t, index);
    case Receive(id, index, audio) => ReceiveKeepsOk(w, id, index, audio);
    case Reply(id) => ReplyKeepsOk(w, id);
    case Acknowledge(t, through) => AcknowledgeKeepsOk(w, t, through);
    case SendFinalize(t) => SendFinalizeKeepsOk(w, t);
  }

  predicate IsEndingStep(s: Step) {
    s.Deliver? || s.Consume? || s.Cancel?
  }

  lemma EndingStepKeepsOk(w: World, s: Step)
    requires Consistent(w) && Enabled(w, s) && IsEndingStep(s)
    ensures Consistent(Effect(w, s))
  {
    match s
    case Deliver(t) => DeliverKeepsOk(w, t);
    case Consume(t) => CloseAfterDelete(w, t);
    case Cancel(t) => CloseAfterDelete(w, t);
  }

  predicate IsFenceStep(s: Step) {
    s.DrawEpoch? || s.RaiseFence? || s.PurgeAll? || s.ClearFence?
  }

  lemma FenceStepKeepsOk(w: World, s: Step)
    requires Consistent(w) && Enabled(w, s) && IsFenceStep(s)
    ensures Consistent(Effect(w, s))
  {
    match s
    case DrawEpoch(newest) => DrawEpochKeepsOk(w, newest);
    case RaiseFence(value) => RaiseFenceKeepsOk(w, value);
    case PurgeAll => PurgeKeepsOk(w);
    case ClearFence(t) => ClearFenceKeepsOk(w, t);
  }

  predicate IsRecoveryStep(s: Step) {
    s.ReadFence? || s.PurgeForRecovery? || s.Scan? || s.Partition? || s.Drop?
  }

  lemma RecoveryStepKeepsOk(w: World, s: Step)
    requires Consistent(w) && Enabled(w, s) && IsRecoveryStep(s)
    ensures Consistent(Effect(w, s))
  {
    match s
    case ReadFence(t) => ReadFenceKeepsOk(w, t);
    case PurgeForRecovery(t) => PurgeForRecoveryKeepsOk(w, t);
    case Scan(t) => ScanKeepsOk(w, t);
    case Partition(t, now) => PartitionKeepsOk(w, t, now);
    case Drop(_, id) => DeletionKeepsOk(w, id, None);
  }

  lemma StepKeepsConsistent(w: World, s: Step)
    requires Consistent(w)
    ensures Consistent(Do(w, s))
  {
    if Enabled(w, s) {
      if IsAdmission(s) {
        AdmissionKeepsOk(w, s);
      } else if IsTabStep(s) {
        TabStepKeepsOk(w, s);
      } else if IsNetworkStep(s) {
        NetworkStepKeepsOk(w, s);
      } else if IsEndingStep(s) {
        EndingStepKeepsOk(w, s);
      } else if IsFenceStep(s) {
        FenceStepKeepsOk(w, s);
      } else {
        RecoveryStepKeepsOk(w, s);
      }
    }
  }

  lemma {:induction false} RunKeepsConsistent(w: World, steps: seq<Step>)
    requires Consistent(w)
    ensures Consistent(Run(w, steps))
    decreases |steps|
  {
    if steps != [] {
      StepKeepsConsistent(w, steps[0]);
      RunKeepsConsistent(Do(w, steps[0]), steps[1..]);
    }
  }

  lemma FreshIsConsistent(epoch: string)
    ensures Consistent(Fresh(epoch))
  {
  }
}
