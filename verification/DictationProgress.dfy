/**
 * What the custody protocol is for: while no sign-out stands, audio appended under the lease is
 * recorded, and every stored draft, whatever its tabs and its network went through, can be taken
 * over by a new tab, uploaded whole, completed, delivered and removed.
 */
module DictationProgress {
  import opened Prelude
  import opened DictationStore
  import opened DictationWorld
  import opened DictationInvariant
  import opened DictationFinalize

  /** Some steps lead from `w` to `v`. */
  ghost predicate Leads(w: World, v: World) {
    exists steps :: Run(w, steps) == v
  }

  lemma LeadsBy(w: World, steps: seq<Step>)
    ensures Leads(w, Run(w, steps))
  {
  }

  lemma LeadsOn(w: World, u: World, s: Step)
    requires Leads(w, u)
    ensures Leads(w, Do(u, s))
  {
    var steps :| Run(w, steps) == u;
    RunConcat(w, steps, [s]);
    assert Run(u, [s]) == Do(u, s) by {
      assert [s][1..] == [];
    }
  }

  lemma LeadsThrough(w: World, u: World, v: World)
    requires Leads(w, u) && Leads(u, v)
    ensures Leads(w, v)
  {
    var a :| Run(w, a) == u;
    var b :| Run(u, b) == v;
    RunConcat(w, a, b);
  }

  lemma LeadsNowhere(w: World)
    ensures Leads(w, w)
  {
    assert Run(w, []) == w;
  }

  /** Tab `t` waits for nothing, its copy `d` is the stored record, and a write would be admitted. */
  predicate Working(w: World, t: nat, d: Draft, stage: Stage) {
    && t in w.tabs && w.tabs[t].draft == Some(d) && w.tabs[t].stage == stage && w.tabs[t].pending == Nothing
    && d.id in w.db.drafts && w.db.drafts[d.id] == d
    && w.fence == None && d.custodyEpoch == w.epoch
  }

  // ---------------------------------------------------------------------------
  // Recording
  // ---------------------------------------------------------------------------

  lemma TwoStepsKeepConsistent(w: World, a: Step, b: Step)
    requires Consistent(w)
    ensures Consistent(Do(Do(w, a), b))
  {
    StepKeepsConsistent(w, a);
    StepKeepsConsistent(Do(w, a), b);
  }

  /** A new recording is stored empty, under its account, the current epoch and generation one. */
  lemma CreatedDraftIsStored(w: World, t: nat, id: string, now: int, later: int)
    requires t in w.tabs && w.tabs[t].pending == Nothing && w.tabs[t].draft == None
    requires w.fence == None && id !in w.used
    ensures var v := Do(Do(w, AdmitCreate(t, id, now)), Commit(t, later));
            var d := Draft(id, w.tabs[t].ownerId, w.epoch, 1, now, 0, 0, Recording, None);
            && Working(v, t, d, Live)
            && v.db == w.db.(drafts := w.db.drafts[id := d])
            && v.recorded == w.recorded[id := []] && v.server == w.server[id := []]
  {
  }

  lemma AppendIsAdmitted(w: World, t: nat, d: Draft, stage: Stage, audio: Audio, durationMs: int)
    requires Working(w, t, d, stage) && audio != [] && stage in {Live, Flushing, Drained, Finishing, GaveUp}
    ensures Do(w, AdmitAppend(t, audio, durationMs)) == WithTab(w, t, w.tabs[t].(pending := Appending(audio, durationMs)))
  {
  }

  lemma AppendIsCommitted(w: World, t: nat, d: Draft, audio: Audio, durationMs: int, now: int)
    requires t in w.tabs && w.tabs[t].draft == Some(d) && w.tabs[t].pending == Appending(audio, durationMs)
    requires d.id in w.db.drafts && w.db.drafts[d.id] == d && d.id in w.recorded
    ensures var next := d.(durationMs := durationMs, nextChunkIndex := d.nextChunkIndex + 1, updatedAt := now);
            Do(w, Commit(t, now)) ==
            w.(db := Db(w.db.drafts[d.id := next], w.db.chunks[d.id := Stored(w.db, d.id)[d.nextChunkIndex := audio]]),
               recorded := w.recorded[d.id := w.recorded[d.id] + [audio]],
               tabs := w.tabs[t := w.tabs[t].(draft := Some(next), pending := Nothing)])
  {
  }

  /**
   * While the lease is held and the session unfinished, an append always lands: its audio lies in
   * the store at the old cursor and ends the recording, and record and copy both move on by one.
   */
  lemma HeldAppendIsRecorded(w: World, t: nat, d: Draft, stage: Stage, audio: Audio, durationMs: int, now: int)
    requires Working(w, t, d, stage) && d.id in w.recorded && audio != []
    requires stage in {Live, Flushing, Drained, Finishing, GaveUp}
    ensures var v := Do(Do(w, AdmitAppend(t, audio, durationMs)), Commit(t, now));
            var next := d.(durationMs := durationMs, nextChunkIndex := d.nextChunkIndex + 1, updatedAt := now);
            && Working(v, t, next, stage)
            && v.db.drafts == w.db.drafts[d.id := next]
            && v.db.chunks == w.db.chunks[d.id := Stored(w.db, d.id)[d.nextChunkIndex := audio]]
            && v.recorded == w.recorded[d.id := w.recorded[d.id] + [audio]]
  {
    AppendIsAdmitted(w, t, d, stage, audio, durationMs);
    AppendIsCommitted(WithTab(w, t, w.tabs[t].(pending := Appending(audio, durationMs))), t, d, audio, durationMs, now);
  }

  // ---------------------------------------------------------------------------
  // Taking over
  // ---------------------------------------------------------------------------

  /** A new tab under no fence comes to look at every draft there is. */
  lemma NewTabScans(w: World, t: nat, ownerId: string)
    requires t !in w.tabs && w.fence == None
    ensures Do(Do(Do(w, OpenTab(t, ownerId)), ReadFence(t)), Scan(t)) ==
            w.(tabs := w.tabs[t := Tab(ownerId, None, Closed, 0, Nothing, Scanned(w.db.drafts.Values))])
  {
    var tab := Tab(ownerId, None, Closed, 0, Nothing, Resting);
    assert Do(w, OpenTab(t, ownerId)) == WithTab(w, t, tab);
    TabReads(WithTab(w, t, tab), t);
    TabOverwritten(w, t, tab, tab.(recovery := Scanning));
    TabOverwritten(w, t, tab.(recovery := Scanning), tab.(recovery := Scanned(w.db.drafts.Values)));
  }

  lemma TabReads(w: World, t: nat)
    requires t in w.tabs && w.tabs[t].recovery == Resting && w.fence == None
    ensures Do(w, ReadFence(t)) == WithTab(w, t, w.tabs[t].(recovery := Scanning))
  {
  }

  lemma TabOverwritten(w: World, t: nat, a: Tab, b: Tab)
    ensures WithTab(WithTab(w, t, a), t, b) == WithTab(w, t, b)
  {
  }

  /** The split offers a current draft of the tab's own account that is at most six hours old. */
  lemma PartitionOffersDraft(w: World, t: nat, d: Draft, now: int)
    requires t in w.tabs && w.tabs[t].recovery.Scanned? && d in w.tabs[t].recovery.found && d.ownerId == w.tabs[t].ownerId
    requires d.ownerId != "" && d.generation >= 1 && d.custodyEpoch == w.epoch && now - d.updatedAt <= 6 * 60 * 60_000
    ensures var v := Do(w, Partition(t, now));
            && t in v.tabs && v == w.(tabs := v.tabs)
            && v.tabs[t] == w.tabs[t].(recovery := v.tabs[t].recovery)
            && v.tabs[t].recovery.Offering? && d in v.tabs[t].recovery.offered
  {
  }

  /** Claiming an offered draft hands over the stored record under the next generation. */
  lemma ClaimTakesOver(w: World, t: nat, d: Draft, now: int)
    requires t in w.tabs && w.tabs[t].draft == None && w.tabs[t].pending == Nothing
    requires w.tabs[t].recovery.Offering? && d in w.tabs[t].recovery.offered
    requires d.id in w.db.drafts && w.db.drafts[d.id] == d && w.fence == None && d.custodyEpoch == w.epoch
    ensures var v := Do(Do(w, AdmitClaim(t, d)), Commit(t, now));
            var next := d.(generation := d.generation + 1, updatedAt := now);
            && Working(v, t, next, Live)
            && v == w.(db := w.db.(drafts := w.db.drafts[d.id := next]), tabs := v.tabs)
  {
  }

  lemma LeadsKeepsConsistent(w: World, v: World)
    requires Consistent(w) && Leads(w, v)
    ensures Consistent(v)
  {
    var steps :| Run(w, steps) == v;
    RunKeepsConsistent(w, steps);
  }

  lemma TwoStepsLead(w: World, a: Step, b: Step)
    ensures Leads(w, Do(Do(w, a), b))
  {
    LeadsNowhere(w);
    LeadsOn(w, w, a);
    LeadsOn(w, Do(w, a), b);
  }

  /** All a take-over or a phase write changes is the one draft's record and the tab's own state. */
  predicate OnlyRecord(w: World, v: World, d: Draft) {
    v == w.(db := w.db.(drafts := w.db.drafts[d.id := d]), tabs := v.tabs)
  }

  /**
   * A new tab can take over any stored draft of its account that is current and young enough,
   * whatever state its earlier holders are in.
   */
  lemma NewTabTakesOver(w: World, t: nat, d: Draft, now: int) returns (v: World)
    requires t !in w.tabs && w.fence == None && d.id in w.db.drafts && w.db.drafts[d.id] == d
    requires d.ownerId != "" && d.generation >= 1 && d.custodyEpoch == w.epoch && now - d.updatedAt <= 6 * 60 * 60_000
    ensures Leads(w, v)
    ensures Working(v, t, d.(generation := d.generation + 1, updatedAt := now), Live)
    ensures OnlyRecord(w, v, d.(generation := d.generation + 1, updatedAt := now))
  {
    var scanned := Do(Do(Do(w, OpenTab(t, d.ownerId)), ReadFence(t)), Scan(t));
    TwoStepsLead(w, OpenTab(t, d.ownerId), ReadFence(t));
    LeadsOn(w, Do(Do(w, OpenTab(t, d.ownerId)), ReadFence(t)), Scan(t));
    NewTabScans(w, t, d.ownerId);
    var offering := Do(scanned, Partition(t, now));
    LeadsOn(w, scanned, Partition(t, now));
    PartitionOffersDraft(scanned, t, d, now);
    LeadsOn(w, offering, AdmitClaim(t, d));
    LeadsOn(w, Do(offering, AdmitClaim(t, d)), Commit(t, now));
    ClaimTakesOver(offering, t, d, now);
    v := Do(Do(offering, AdmitClaim(t, d)), Commit(t, now));
  }

  // ---------------------------------------------------------------------------
  // Uploading
  // ---------------------------------------------------------------------------

  /** Records, tabs and local storage are as they were; the network and the chunks may have moved on. */
  predicate OnlyNetwork(w: World, v: World) {
    v == w.(db := w.db.(chunks := v.db.chunks), server := v.server, sent := v.sent, acks := v.acks)
  }

  /** The chunk the server wants next is in the store, and sent and received once it is accepted. */
  lemma NextChunkReaches(w: World, t: nat, d: Draft, stage: Stage)
    requires Consistent(w) && Working(w, t, d, stage)
    requires d.id in w.server && |w.server[d.id]| < d.nextChunkIndex
    ensures var i := |w.server[d.id]|;
            && i in Stored(w.db, d.id)
            && var v := Do(Do(w, Upload(t, i)), Receive(d.id, i, Stored(w.db, d.id)[i]));
               && OnlyNetwork(w, v) && v.db == w.db
               && v.server == w.server[d.id := w.server[d.id] + [Stored(w.db, d.id)[i]]]
  {
    assert DraftOk(w, d.id);
  }

  lemma {:induction false} EveryChunkReaches(w: World, t: nat, d: Draft, stage: Stage) returns (v: World)
    requires Consistent(w) && Working(w, t, d, stage)
    requires d.id in w.server && |w.server[d.id]| <= d.nextChunkIndex
    ensures Leads(w, v) && OnlyNetwork(w, v) && v.db == w.db
    ensures d.id in v.server && |v.server[d.id]| == d.nextChunkIndex
    decreases d.nextChunkIndex - |w.server[d.id]|
  {
    if |w.server[d.id]| == d.nextChunkIndex {
      LeadsNowhere(w);
      return w;
    }
    NextChunkReaches(w, t, d, stage);
    var i := |w.server[d.id]|;
    var a, b := Upload(t, i), Receive(d.id, i, Stored(w.db, d.id)[i]);
    TwoStepsLead(w, a, b);
    TwoStepsKeepConsistent(w, a, b);
    v := EveryChunkReaches(Do(Do(w, a), b), t, d, stage);
    LeadsThrough(w, Do(Do(w, a), b), v);
  }

  /** One acknowledgement of the whole recording empties the draft's chunks, and touches no other draft's. */
  lemma WholeIsAcknowledged(w: World, t: nat, d: Draft, stage: Stage)
    requires ChunksOk(w, d.id) && Working(w, t, d, stage)
    requires d.id in w.server && d.id in w.recorded && |w.server[d.id]| == d.nextChunkIndex == |w.recorded[d.id]|
    ensures var v := Do(Do(w, Reply(d.id)), Acknowledge(t, d.nextChunkIndex - 1));
            && OnlyNetwork(w, v) && v.server == w.server
            && Stored(v.db, d.id) == map[]
            && forall id :: id != d.id ==> Stored(v.db, id) == Stored(w.db, id)
  {
  }

  // ---------------------------------------------------------------------------
  // Finishing
  // ---------------------------------------------------------------------------

  /** The four phase writes of a session, and where each one lands. */
  predicate Follows(stage: Stage, d: Draft, phase: Phase, landing: Stage) {
    || (stage == Live && d.phase != Phase.Complete && phase == Uploading && landing == Flushing)
    || (stage == Drained && phase == Finalizing && landing == Finishing)
    || (stage == Finishing && phase == Phase.Complete && landing == Done)
    || (stage == Finishing && phase == Failed && landing == GaveUp)
  }

  function Put(d: Draft, phase: Phase, transcript: string, now: int): Draft {
    d.(phase := phase, updatedAt := now, transcript := if phase == Phase.Complete then Some(transcript) else d.transcript)
  }

  lemma PutIsAdmitted(w: World, t: nat, d: Draft, stage: Stage, phase: Phase, landing: Stage, transcript: string, now: int)
    requires Working(w, t, d, stage) && Follows(stage, d, phase, landing)
    ensures Do(w, AdmitPut(t, phase, transcript, now)) ==
            WithTab(w, t, w.tabs[t].(pending := Putting(Put(d, phase, transcript, now), landing)))
  {
    assert DraftAfterPut(d, phase, transcript, now) == Put(d, phase, transcript, now);
    assert NextStage(stage, d, phase) == Some(landing);
  }

  lemma PutIsCommitted(w: World, t: nat, d: Draft, next: Draft, landing: Stage, now: int)
    requires t in w.tabs && w.tabs[t].draft == Some(d) && w.tabs[t].pending == Putting(next, landing)
    requires d.id in w.db.drafts && w.db.drafts[d.id] == d
    ensures Do(w, Commit(t, now)) ==
            w.(db := w.db.(drafts := w.db.drafts[d.id := next]),
               tabs := w.tabs[t := w.tabs[t].(draft := Some(next), stage := landing, pending := Nothing)])
  {
  }

  /** Under the lease a phase write lands: record and copy are the new one, and the session moves on. */
  lemma HeldPutLands(w: World, t: nat, d: Draft, stage: Stage, phase: Phase, landing: Stage, transcript: string, now: int)
    requires Working(w, t, d, stage) && Follows(stage, d, phase, landing)
    ensures var v := Do(Do(w, AdmitPut(t, phase, transcript, now)), Commit(t, now));
            var next := Put(d, phase, transcript, now);
            && Working(v, t, next, landing) && OnlyRecord(w, v, next)
            && v.tabs[t].drained == w.tabs[t].drained
  {
    var next := Put(d, phase, transcript, now);
    var u := WithTab(w, t, w.tabs[t].(pending := Putting(next, landing)));
    PutIsAdmitted(w, t, d, stage, phase, landing, transcript, now);
    PutIsCommitted(u, t, d, next, landing, now);
  }

  lemma PutLeads(w: World, t: nat, d: Draft, stage: Stage, phase: Phase, landing: Stage, transcript: string, now: int) returns (v: World)
    requires Working(w, t, d, stage) && Follows(stage, d, phase, landing)
    ensures Leads(w, v)
    ensures Working(v, t, Put(d, phase, transcript, now), landing) && OnlyRecord(w, v, Put(d, phase, transcript, now))
    ensures v.tabs[t].drained == w.tabs[t].drained
  {
    HeldPutLands(w, t, d, stage, phase, landing, transcript, now);
    TwoStepsLead(w, AdmitPut(t, phase, transcript, now), Commit(t, now));
    v := Do(Do(w, AdmitPut(t, phase, transcript, now)), Commit(t, now));
  }

  /** With nothing left to upload the session drains, and remembers how far. */
  lemma EmptyFlushDrains(w: World, t: nat, d: Draft)
    requires Working(w, t, d, Flushing) && Stored(w.db, d.id) == map[]
    ensures var v := Do(w, Drain(t));
            && Working(v, t, d, Drained) && v == w.(tabs := v.tabs)
            && v.tabs[t].drained == d.nextChunkIndex
  {
  }

  /** A draft whose transcript is stored is delivered, and then leaves with its chunks. */
  lemma DoneIsDelivered(w: World, t: nat, d: Draft)
    requires Working(w, t, d, Done)
    ensures var v := Do(Do(w, Deliver(t)), Consume(t));
            && d.id in v.delivered
            && v.db == Db(w.db.drafts - {d.id}, w.db.chunks - {d.id})
            && v == w.(db := v.db, tabs := v.tabs, delivered := v.delivered)
  {
  }

  /** A flushing session under the lease gets everything recorded accepted, and drains. */
  lemma FlushDrains(w: World, t: nat, d: Draft) returns (v: World)
    requires Consistent(w) && Working(w, t, d, Flushing)
    ensures Leads(w, v) && Working(v, t, d, Drained)
    ensures v.recorded == w.recorded && v.finals == w.finals && v.db.drafts == w.db.drafts
    ensures d.id in v.recorded && d.id in v.server && v.server[d.id] == v.recorded[d.id]
    ensures v.tabs[t].drained == d.nextChunkIndex == |v.recorded[d.id]|
  {
    assert DraftOk(w, d.id);
    var whole := EveryChunkReaches(w, t, d, Flushing);
    LeadsKeepsConsistent(w, whole);
    assert DraftOk(whole, d.id) && ChunksOk(whole, d.id);
    WholeIsAcknowledged(whole, t, d, Flushing);
    var a, b := Reply(d.id), Acknowledge(t, d.nextChunkIndex - 1);
    var empty := Do(Do(whole, a), b);
    TwoStepsLead(whole, a, b);
    LeadsThrough(w, whole, empty);
    EmptyFlushDrains(empty, t, d);
    LeadsOn(w, empty, Drain(t));
    v := Do(empty, Drain(t));
  }

  /** The finalize request for `d` names its last chunk, sent when all of them had been accepted. */
  predicate Requested(w: World, d: Draft) {
    (d.id, d.nextChunkIndex - 1, d.nextChunkIndex) in w.finals
  }

  lemma FinishingRequests(w: World, t: nat, d: Draft)
    requires Working(w, t, d, Finishing) && w.tabs[t].drained == d.nextChunkIndex
    ensures Do(w, SendFinalize(t)) == w.(finals := w.finals + {(d.id, d.nextChunkIndex - 1, d.nextChunkIndex)})
  {
  }

  lemma DrainedIsRequested(w: World, t: nat, d: Draft, now: int) returns (v: World)
    requires Working(w, t, d, Drained) && w.tabs[t].drained == d.nextChunkIndex
    ensures Leads(w, v) && Working(v, t, Put(d, Finalizing, "", now), Finishing) && Requested(v, d)
    ensures v.recorded == w.recorded && v.server == w.server
  {
    var put := PutLeads(w, t, d, Drained, Finalizing, Finishing, "", now);
    FinishingRequests(put, t, Put(d, Finalizing, "", now));
    LeadsOn(w, put, SendFinalize(t));
    v := Do(put, SendFinalize(t));
  }

  // ---------------------------------------------------------------------------
  // Leaving
  // ---------------------------------------------------------------------------

  /** A holder may cancel at any time before its draft is handed over: just that draft and its chunks go. */
  lemma CancelRemoves(w: World, t: nat, d: Draft, stage: Stage)
    requires Working(w, t, d, stage) && stage in {Live, Flushing, Drained, Finishing, GaveUp, Done}
    ensures var v := Do(w, Cancel(t));
            && v.db == Db(w.db.drafts - {d.id}, w.db.chunks - {d.id})
            && v == w.(db := v.db, tabs := w.tabs[t := w.tabs[t].(stage := Closed)])
  {
  }

  /** A crash takes the tab and nothing else. */
  lemma CrashTakesTheTab(w: World, t: nat)
    requires t in w.tabs
    ensures t !in Do(w, CrashTab(t)).tabs
    ensures Do(w, CrashTab(t)) == w.(tabs := Do(w, CrashTab(t)).tabs)
    ensures forall u :: u in w.tabs && u != t ==> u in Do(w, CrashTab(t)).tabs && Do(w, CrashTab(t)).tabs[u] == w.tabs[u]
  {
  }

  /** A draft that recovery rejected is dropped with its chunks, whoever holds it. */
  lemma RejectedIsDropped(w: World, t: nat, id: string)
    requires t in w.tabs && w.tabs[t].recovery.Offering? && id in w.tabs[t].recovery.rejected && id in w.db.drafts
    ensures Do(w, Drop(t, id)) == w.(db := Db(w.db.drafts - {id}, w.db.chunks - {id}))
  {
  }

  /**
   * A sign-out puts a new epoch and its fence in place and purges everything; the next recovery of
   * any view purges once more and takes that fence down.
   */
  lemma SignOutPurges(w: World, newest: string, t: nat)
    requires HistoryOk(w) && newest !in w.epochs && t in w.tabs && w.tabs[t].recovery == Resting
    ensures var out := Do(Do(Do(w, DrawEpoch(newest)), RaiseFence(newest)), PurgeAll);
            && out.epoch == newest && out.fence == Some(newest) && out.db == EMPTY_DB && out.tabs == w.tabs
            && var back := Do(Do(Do(out, ReadFence(t)), PurgeForRecovery(t)), ClearFence(t));
               && back.epoch == newest && back.fence == None && back.db == EMPTY_DB && back.tabs == w.tabs
  {
    var out := Do(Do(Do(w, DrawEpoch(newest)), RaiseFence(newest)), PurgeAll);
    assert out == w.(epoch := newest, epochs := w.epochs + {newest}, fence := Some(newest), raised := w.raised + {newest}, db := EMPTY_DB);
    FencedRecoveryPurges(out, newest, t);
  }

  lemma FencedRecoveryPurges(w: World, value: string, t: nat)
    requires w.fence == Some(value) && t in w.tabs && w.tabs[t].recovery == Resting
    ensures Do(Do(Do(w, ReadFence(t)), PurgeForRecovery(t)), ClearFence(t)) == w.(fence := None, db := EMPTY_DB)
  {
    var tab := w.tabs[t];
    assert Do(w, ReadFence(t)) == WithTab(w, t, tab.(recovery := Purging(value)));
    var purged := w.(db := EMPTY_DB);
    TabOverwritten(purged, t, tab.(recovery := Purging(value)), tab.(recovery := Purged(value)));
    TabOverwritten(w.(fence := None, db := EMPTY_DB), t, tab.(recovery := Purged(value)), tab);
    assert w.tabs[t := tab] == w.tabs;
  }

  /** Draft `id` is complete with this transcript, and the server has all of it and was asked to finalize. */
  ghost predicate CompletedAs(w: World, v: World, id: string, transcript: string) {
    && id in v.db.drafts && v.db.drafts[id].phase == Phase.Complete && v.db.drafts[id].transcript == Some(transcript)
    && id in w.recorded && v.recorded == w.recorded && id in v.server && v.server[id] == w.recorded[id]
    && (id, |w.recorded[id]| - 1, |w.recorded[id]|) in v.finals
  }

  lemma LiveCompletes(w: World, t: nat, d: Draft, transcript: string, now: int) returns (v: World, done: Draft)
    requires Consistent(w) && Working(w, t, d, Live) && d.phase != Phase.Complete
    ensures Leads(w, v) && CompletedAs(w, v, d.id, transcript)
    ensures done.id == d.id && Working(v, t, done, Done)
  {
    var flushing := PutLeads(w, t, d, Live, Uploading, Flushing, "", now);
    LeadsKeepsConsistent(w, flushing);
    var uploading := Put(d, Uploading, "", now);
    var drained := FlushDrains(flushing, t, uploading);
    LeadsThrough(w, flushing, drained);
    var requested := DrainedIsRequested(drained, t, uploading, now);
    LeadsThrough(w, drained, requested);
    var finalizing := Put(uploading, Finalizing, "", now);
    v := PutLeads(requested, t, finalizing, Finishing, Phase.Complete, Done, transcript, now);
    LeadsThrough(w, requested, v);
    done := Put(finalizing, Phase.Complete, transcript, now);
  }

  /** Recovery would admit the draft `id` of `w` at `now`: no sign-out stands, and it is owned, current and young. */
  predicate Recoverable(w: World, id: string, now: int) {
    && w.fence == None && id in w.db.drafts
    && var d := w.db.drafts[id];
       d.ownerId != "" && d.custodyEpoch == w.epoch && now - d.updatedAt <= 6 * 60 * 60_000
  }

  /** The draft has been delivered and nothing of it is left in the store. */
  predicate DeliveredAndGone(v: World, id: string) {
    id in v.delivered && id !in v.db.drafts && id !in v.db.chunks
  }

  /** The take-over of a recoverable draft. */
  lemma RecoverableIsTaken(w: World, t: nat, id: string, now: int) returns (v: World, d: Draft)
    requires Consistent(w) && t !in w.tabs && Recoverable(w, id, now)
    ensures Leads(w, v) && Working(v, t, d, Live) && OnlyRecord(w, v, d)
    ensures d == w.db.drafts[id].(generation := d.generation, updatedAt := now) && d.id == id
  {
    assert DraftOk(w, id);
    var stored := w.db.drafts[id];
    v := NewTabTakesOver(w, t, stored, now);
    d := stored.(generation := stored.generation + 1, updatedAt := now);
  }

  lemma RecoverableCompletes(w: World, t: nat, id: string, transcript: string, now: int) returns (v: World, done: Draft)
    requires Consistent(w) && t !in w.tabs && Recoverable(w, id, now) && w.db.drafts[id].phase != Phase.Complete
    ensures Leads(w, v) && CompletedAs(w, v, id, transcript)
    ensures done.id == id && Working(v, t, done, Done)
  {
    var taken, d := RecoverableIsTaken(w, t, id, now);
    LeadsKeepsConsistent(w, taken);
    v, done := LiveCompletes(taken, t, d, transcript, now);
    LeadsThrough(w, taken, v);
  }

  lemma RecoverableIsDone(w: World, t: nat, id: string, now: int) returns (v: World, done: Draft)
    requires Consistent(w) && t !in w.tabs && Recoverable(w, id, now) && w.db.drafts[id].phase == Phase.Complete
    ensures Leads(w, v) && done.id == id && done.transcript == w.db.drafts[id].transcript && Working(v, t, done, Done)
  {
    var taken;
    taken, done := RecoverableIsTaken(w, t, id, now);
    LeadsOn(w, taken, FinishRecovered(t));
    v := Do(taken, FinishRecovered(t));
  }

  lemma DoneLeaves(w: World, t: nat, d: Draft)
    requires Working(w, t, d, Done)
    ensures Leads(w, Do(Do(w, Deliver(t)), Consume(t))) && DeliveredAndGone(Do(Do(w, Deliver(t)), Consume(t)), d.id)
  {
    DoneIsDelivered(w, t, d);
    TwoStepsLead(w, Deliver(t), Consume(t));
  }

  lemma ReachedIsConsistent(epoch: string, steps: seq<Step>)
    ensures Consistent(Run(Fresh(epoch), steps))
  {
    FreshIsConsistent(epoch);
    RunKeepsConsistent(Fresh(epoch), steps);
  }

  /**
   * No recording is ever stuck.  In every reachable world, whatever tabs have crashed and whatever
   * messages were lost, an unfinished draft that recovery admits can be completed by a new tab with
   * every chunk ever recorded at the server, and then delivered and removed.
   */
  lemma EveryRecordingCanBeCompleted(epoch: string, steps: seq<Step>, t: nat, id: string, transcript: string, now: int)
    returns (v: World)
    requires var w := Run(Fresh(epoch), steps);
             t !in w.tabs && Recoverable(w, id, now) && w.db.drafts[id].phase != Phase.Complete
    ensures var w := Run(Fresh(epoch), steps);
            && Leads(w, v) && CompletedAs(w, v, id, transcript)
            && Leads(v, Do(Do(v, Deliver(t)), Consume(t)))
            && DeliveredAndGone(Do(Do(v, Deliver(t)), Consume(t)), id)
  {
    ReachedIsConsistent(epoch, steps);
    var done;
    v, done := RecoverableCompletes(Run(Fresh(epoch), steps), t, id, transcript, now);
    DoneLeaves(v, t, done);
  }

  /** Nor is a transcript: a complete draft that recovery admits can be delivered by a new tab as it is, and removed. */
  lemma EveryTranscriptCanBeDelivered(epoch: string, steps: seq<Step>, t: nat, id: string, now: int) returns (v: World)
    requires var w := Run(Fresh(epoch), steps);
             t !in w.tabs && Recoverable(w, id, now) && w.db.drafts[id].phase == Phase.Complete
    ensures var w := Run(Fresh(epoch), steps);
            && Leads(w, v) && id in v.db.drafts && v.db.drafts[id].transcript == w.db.drafts[id].transcript
            && Leads(v, Do(Do(v, Deliver(t)), Consume(t)))
            && DeliveredAndGone(Do(Do(v, Deliver(t)), Consume(t)), id)
  {
    ReachedIsConsistent(epoch, steps);
    var done;
    v, done := RecoverableIsDone(Run(Fresh(epoch), steps), t, id, now);
    DoneLeaves(v, t, done);
  }
}
