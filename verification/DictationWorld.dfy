/**
 * Durable dictation as a whole: any number of tabs over one shared store, sign-outs, crashes,
 * an unreliable network and a server that accepts each recording's chunks in order.
 *
 * A store call is two steps: `Admit...` is the last check of the fence and the epoch it makes,
 * `Commit` is its IndexedDB transaction.  Anything may happen in between.  A tab starts no
 * append, phase or finish call of its session before the previous one has come back; until its
 * transcript is stored it may append at any time, also while it is finishing.  Each draft has its
 * own remote session, named here by the draft's id.
 */
module DictationWorld {
  import opened Prelude
  import opened DictationStore

  datatype Stage = Live | Flushing | Drained | Finishing | GaveUp | Done | HandedOver | Closed

  datatype Pending =
    | Nothing
    | Creating(created: Draft)
    | Claiming(candidate: Draft)
    | Appending(audio: Audio, durationMs: int)
    | Putting(next: Draft, landing: Stage)

  datatype Recovery =
    | Resting
    | Purging(read: string)
    | Purged(read: string)
    | Scanning
    | Scanned(found: set<Draft>)
    | Offering(offered: set<Draft>, rejected: set<string>)

  /**
   * One view: its account, its session's copy of the draft, and what it is waiting for.  `drained`
   * remembers the cursor its session had when a finishing flush found nothing left to upload.
   */
  datatype Tab = Tab(ownerId: string, draft: Option<Draft>, stage: Stage, drained: nat, pending: Pending, recovery: Recovery)

  /**
   * `epochs` and `used` are the tokens drawn so far, `raised` the epochs that have been a fence, each
   * once; a finalize request carries the `drained` mark of its tab; `recorded`, `born` and `delivered` remember
   * all audio ever appended, who created a draft under which epoch, and which transcripts a
   * composer has durably taken.  Messages once sent may arrive late, twice, or never.
   */
  datatype World = World(
    db: Db, fence: Option<string>, epoch: string, epochs: set<string>, raised: set<string>, tabs: map<nat, Tab>, used: set<string>,
    recorded: map<string, seq<Audio>>, born: map<string, (string, string)>, server: map<string, seq<Audio>>,
    sent: set<(string, nat, Audio)>, acks: set<(string, int)>, finals: set<(string, int, nat)>, delivered: set<string>)

  datatype Step =
    | OpenTab(t: nat, ownerId: string)
    | CrashTab(t: nat)
    | DrawEpoch(newest: string)
    | RaiseFence(value: string)
    | PurgeAll
    | AdmitCreate(t: nat, id: string, now: int)
    | AdmitClaim(t: nat, candidate: Draft)
    | AdmitAppend(t: nat, audio: Audio, durationMs: int)
    | AdmitPut(t: nat, phase: Phase, transcript: string, now: int)
    | Commit(t: nat, now: int)
    | FinishRecovered(t: nat)
    | Upload(t: nat, index: nat)
    | Receive(id: string, index: nat, audio: Audio)
    | Reply(id: string)
    | Acknowledge(t: nat, through: int)
    | Drain(t: nat)
    | SendFinalize(t: nat)
    | Deliver(t: nat)
    | Consume(t: nat)
    | Cancel(t: nat)
    | ReadFence(t: nat)
    | PurgeForRecovery(t: nat)
    | ClearFence(t: nat)
    | Scan(t: nat)
    | Partition(t: nat, now: int)
    | Drop(t: nat, id: string)

  function WithTab(w: World, t: nat, tab: Tab): World {
    w.(tabs := w.tabs[t := tab])
  }

  /** The check every writer makes last before its transaction: no fence, and the draft's epoch is current. */
  predicate Admits(w: World, custodyEpoch: string) {
    w.fence == None && custodyEpoch == w.epoch
  }

  predicate Busy(w: World, t: nat) {
    t !in w.tabs || w.tabs[t].pending != Nothing
  }

  predicate InSession(w: World, t: nat) {
    t in w.tabs && w.tabs[t].draft.Some?
  }

  /** The phase writes a session makes, and the stage each leads to. */
  function NextStage(stage: Stage, draft: Draft, phase: Phase): Option<Stage> {
    if stage == Live && phase == Uploading && draft.phase != Complete then Some(Flushing)
    else if stage == Drained && phase == Finalizing then Some(Finishing)
    else if stage == Finishing && phase == Complete then Some(Done)
    else if stage == Finishing && phase == Failed then Some(GaveUp)
    else None
  }

  /** Stages in which the session is neither closed nor cancelled. */
  predicate Unclosed(stage: Stage) {
    stage in {Live, Flushing, Drained, Finishing, GaveUp}
  }

  predicate Enabled(w: World, s: Step) {
    match s
    case OpenTab(t, ownerId) => t !in w.tabs
    case CrashTab(t) => t in w.tabs
    case DrawEpoch(newest) => newest !in w.epochs
    case RaiseFence(value) => value in w.epochs && value !in w.raised
    case PurgeAll => true
    case AdmitCreate(t, id, now) => !Busy(w, t) && w.tabs[t].draft.None? && w.fence == None && id !in w.used
    case AdmitClaim(t, candidate) =>
      && !Busy(w, t) && w.tabs[t].draft.None?
      && w.tabs[t].recovery.Offering? && candidate in w.tabs[t].recovery.offered
      && Admits(w, candidate.custodyEpoch)
    case AdmitAppend(t, audio, durationMs) =>
      !Busy(w, t) && InSession(w, t) && Unclosed(w.tabs[t].stage) && audio != [] && Admits(w, w.tabs[t].draft.value.custodyEpoch)
    case AdmitPut(t, phase, transcript, now) =>
      && !Busy(w, t) && InSession(w, t)
      && NextStage(w.tabs[t].stage, w.tabs[t].draft.value, phase).Some?
      && Admits(w, w.tabs[t].draft.value.custodyEpoch)
    case Commit(t, now) => t in w.tabs && w.tabs[t].pending != Nothing
    case FinishRecovered(t) => !Busy(w, t) && InSession(w, t) && w.tabs[t].stage == Live && w.tabs[t].draft.value.phase == Complete
    case Upload(t, index) => InSession(w, t) && index in Stored(w.db, w.tabs[t].draft.value.id)
    case Receive(id, index, audio) => (id, index, audio) in w.sent && id in w.server && index == |w.server[id]|
    case Reply(id) => id in w.server
    case Acknowledge(t, through) => InSession(w, t) && (w.tabs[t].draft.value.id, through) in w.acks
    case Drain(t) =>
      && InSession(w, t) && (w.tabs[t].pending == Nothing || w.tabs[t].pending.Appending?)
      && w.tabs[t].stage == Flushing && Stored(w.db, w.tabs[t].draft.value.id) == map[]
    case SendFinalize(t) => !Busy(w, t) && InSession(w, t) && w.tabs[t].stage == Finishing
    case Deliver(t) => !Busy(w, t) && InSession(w, t) && w.tabs[t].stage == Done
    case Consume(t) => !Busy(w, t) && InSession(w, t) && w.tabs[t].stage == HandedOver
    case Cancel(t) => InSession(w, t) && (Unclosed(w.tabs[t].stage) || w.tabs[t].stage == Done)
    case ReadFence(t) => t in w.tabs && w.tabs[t].recovery == Resting
    case PurgeForRecovery(t) => t in w.tabs && w.tabs[t].recovery.Purging?
    case ClearFence(t) => t in w.tabs && w.tabs[t].recovery.Purged?
    case Scan(t) => t in w.tabs && w.tabs[t].recovery == Scanning
    case Partition(t, now) => t in w.tabs && w.tabs[t].recovery.Scanned?
    case Drop(t, id) => t in w.tabs && w.tabs[t].recovery.Offering? && id in w.tabs[t].recovery.rejected
  }

  function CommitCreate(w: World, t: nat): World
    requires t in w.tabs && w.tabs[t].pending.Creating?
  {
    var d := w.tabs[t].pending.created;
    var tab := w.tabs[t].(draft := Some(d), stage := Live, pending := Nothing);
    WithTab(w.(db := PutTxn(w.db, d), recorded := w.recorded[d.id := []], server := w.server[d.id := []],
               born := w.born[d.id := (d.ownerId, d.custodyEpoch)]), t, tab)
  }

  function CommitClaim(w: World, t: nat, now: int): World
    requires t in w.tabs && w.tabs[t].pending.Claiming?
  {
    var d := w.tabs[t].pending.candidate;
    if Claimable(w.db, d) then
      WithTab(w.(db := ClaimTxn(w.db, d, now)), t,
              w.tabs[t].(draft := Some(Claimed(w.db, d, now)), stage := Live, pending := Nothing))
    else WithTab(w, t, w.tabs[t].(pending := Nothing))
  }

  function CommitAppend(w: World, t: nat, now: int): World
    requires InSession(w, t) && w.tabs[t].pending.Appending?
  {
    var d, p := w.tabs[t].draft.value, w.tabs[t].pending;
    if Holds(w.db, d.id, d.generation) && d.id in w.recorded then
      WithTab(w.(db := AppendTxn(w.db, d, p.audio, p.durationMs, now),
                 recorded := w.recorded[d.id := w.recorded[d.id] + [p.audio]]),
              t, w.tabs[t].(draft := Some(Appended(d, p.durationMs, now)), pending := Nothing))
    else WithTab(w, t, w.tabs[t].(pending := Nothing))
  }

  function CommitPut(w: World, t: nat): World
    requires InSession(w, t) && w.tabs[t].pending.Putting?
  {
    var d, p := w.tabs[t].draft.value, w.tabs[t].pending;
    if Replaceable(w.db, d) then
      WithTab(w.(db := CompareAndPutTxn(w.db, d, p.next)), t,
              w.tabs[t].(draft := Some(p.next), stage := p.landing, pending := Nothing))
    else WithTab(w, t, w.tabs[t].(stage := if p.landing == Done then Closed else GaveUp, pending := Nothing))
  }

  function CommitPending(w: World, t: nat, now: int): World
    requires t in w.tabs
  {
    match w.tabs[t].pending
    case Nothing => w
    case Creating(_) => CommitCreate(w, t)
    case Claiming(_) => CommitClaim(w, t, now)
    case Appending(_, _) => if InSession(w, t) then CommitAppend(w, t, now) else w
    case Putting(_, _) => if InSession(w, t) then CommitPut(w, t) else w
  }

  function DraftAfterPut(draft: Draft, phase: Phase, transcript: string, now: int): Draft {
    if phase == Complete then Completed(draft, transcript, now) else draft.(phase := phase, updatedAt := now)
  }

  function Effect(w: World, s: Step): World
    requires Enabled(w, s)
  {
    match s
    case OpenTab(t, ownerId) => WithTab(w, t, Tab(ownerId, None, Closed, 0, Nothing, Resting))
    case CrashTab(t) => w.(tabs := w.tabs - {t})
    case DrawEpoch(newest) => w.(epoch := newest, epochs := w.epochs + {newest})
    case RaiseFence(value) => w.(fence := Some(value), raised := w.raised + {value})
    case PurgeAll => w.(db := EMPTY_DB)
    case AdmitCreate(t, id, now) =>
      var d := Draft(id, w.tabs[t].ownerId, w.epoch, 1, now, 0, 0, Recording, None);
      WithTab(w.(used := w.used + {id}), t, w.tabs[t].(pending := Creating(d)))
    case AdmitClaim(t, candidate) => WithTab(w, t, w.tabs[t].(pending := Claiming(candidate)))
    case AdmitAppend(t, audio, durationMs) => WithTab(w, t, w.tabs[t].(pending := Appending(audio, durationMs)))
    case AdmitPut(t, phase, transcript, now) =>
      var d := w.tabs[t].draft.value;
      WithTab(w, t, w.tabs[t].(pending := Putting(DraftAfterPut(d, phase, transcript, now),
                                                   NextStage(w.tabs[t].stage, d, phase).value)))
    case Commit(t, now) => CommitPending(w, t, now)
    case FinishRecovered(t) => WithTab(w, t, w.tabs[t].(stage := Done))
    case Upload(t, index) =>
      var id := w.tabs[t].draft.value.id;
      w.(sent := w.sent + {(id, index, Stored(w.db, id)[index])})
    case Receive(id, index, audio) => w.(server := w.server[id := w.server[id] + [audio]])
    case Reply(id) => w.(acks := w.acks + {(id, |w.server[id]| - 1)})
    case Acknowledge(t, through) => w.(db := AcknowledgeTxn(w.db, w.tabs[t].draft.value.id, through))
    case Drain(t) => WithTab(w, t, w.tabs[t].(stage := Drained, drained := w.tabs[t].draft.value.nextChunkIndex))
    case SendFinalize(t) =>
      w.(finals := w.finals + {(w.tabs[t].draft.value.id, w.tabs[t].draft.value.nextChunkIndex - 1, w.tabs[t].drained)})
    case Deliver(t) =>
      WithTab(w.(delivered := w.delivered + {w.tabs[t].draft.value.id}), t, w.tabs[t].(stage := HandedOver))
    case Consume(t) =>
      var d := w.tabs[t].draft.value;
      WithTab(w.(db := DeleteTxn(w.db, d.id, Some(d.generation))), t, w.tabs[t].(stage := Closed))
    case Cancel(t) =>
      var d := w.tabs[t].draft.value;
      WithTab(w.(db := DeleteTxn(w.db, d.id, Some(d.generation))), t, w.tabs[t].(stage := Closed))
    case ReadFence(t) =>
      WithTab(w, t, w.tabs[t].(recovery := if w.fence.Some? then Purging(w.fence.value) else Scanning))
    case PurgeForRecovery(t) =>
      WithTab(w.(db := EMPTY_DB), t, w.tabs[t].(recovery := Purged(w.tabs[t].recovery.read)))
    case ClearFence(t) =>
      WithTab(w.(fence := if w.fence == Some(w.tabs[t].recovery.read) then None else w.fence), t,
              w.tabs[t].(recovery := Resting))
    case Scan(t) => WithTab(w, t, w.tabs[t].(recovery := Scanned(w.db.drafts.Values)))
    case Partition(t, now) =>
      var found := w.tabs[t].recovery.found;
      WithTab(w, t, w.tabs[t].(recovery := Offering(
        set d | d in found && Admissible(d, w.tabs[t].ownerId, now, w.epoch),
        set d | d in found && !Admissible(d, w.tabs[t].ownerId, now, w.epoch) :: d.id)))
    case Drop(t, id) => w.(db := DeleteTxn(w.db, id, None))
  }

  /** A step that is not enabled does not happen. */
  function Do(w: World, s: Step): World {
    if Enabled(w, s) then Effect(w, s) else w
  }

  function Run(w: World, steps: seq<Step>): World
    decreases |steps|
  {
    if steps == [] then w else Run(Do(w, steps[0]), steps[1..])
  }

  function Fresh(epoch: string): World {
    World(EMPTY_DB, None, epoch, {epoch}, {}, map[], {}, map[], map[], map[], {}, {}, {}, {})
  }

  // ---------------------------------------------------------------------------
  // The invariant
  // ---------------------------------------------------------------------------

  /** A stored draft agrees with its history, and what the server lacks is stored. */
  ghost predicate DraftOk(w: World, id: string) {
    id in w.db.drafts ==>
      var r := w.db.drafts[id];
      && r.id == id
      && r.generation >= 1
      && id in w.recorded && id in w.born && id in w.server
      && |w.recorded[id]| == r.nextChunkIndex
      && w.born[id] == (r.ownerId, r.custodyEpoch)
      && forall i: nat :: |w.server[id]| <= i < r.nextChunkIndex ==> i in Stored(w.db, id)
  }

  /** Stored chunks are recorded audio of a draft that exists. */
  ghost predicate ChunksOk(w: World, id: string) {
    id in w.db.chunks ==>
      && id in w.db.drafts
      && id in w.recorded
      && forall i :: i in w.db.chunks[id] ==> i < |w.recorded[id]| && w.db.chunks[id][i] == w.recorded[id][i]
  }

  ghost predicate HistoryOk(w: World) {
    && w.recorded.Keys == w.server.Keys == w.born.Keys
    && w.recorded.Keys <= w.used
    && (forall id :: id in w.server ==> w.server[id] <= w.recorded[id])
    && (forall id :: id in w.born ==> w.born[id].1 in w.epochs)
    && w.epoch in w.epochs
    && w.raised <= w.epochs
    && (w.fence.Some? ==> w.fence.value in w.raised)
  }

  ghost predicate MessagesOk(w: World) {
    && (forall m :: m in w.sent ==> m.0 in w.recorded && m.1 < |w.recorded[m.0]| && w.recorded[m.0][m.1] == m.2)
    && (forall a :: a in w.acks ==> a.0 in w.server && a.1 < |w.server[a.0]|)
    && (forall f :: f in w.finals ==> f.0 in w.server && f.0 in w.recorded && f.2 <= |w.server[f.0]| && f.2 <= f.1 + 1 <= |w.recorded[f.0]|)
  }

  /** The server holds the chunks of `d` below index `upTo`. */
  predicate Covered(w: World, d: Draft, upTo: nat) {
    d.id in w.server && |w.server[d.id]| >= upTo
  }

  /** A session's copy is never ahead of the store, and equals the record while it holds the lease. */
  ghost predicate CopyOk(w: World, ownerId: string, d: Draft) {
    && d.id in w.recorded && d.id in w.born
    && d.ownerId == ownerId
    && d.nextChunkIndex <= |w.recorded[d.id]|
    && w.born[d.id] == (d.ownerId, d.custodyEpoch)
    && (d.id in w.db.drafts ==>
          && d.generation <= w.db.drafts[d.id].generation
          && (d.generation == w.db.drafts[d.id].generation ==> w.db.drafts[d.id] == d))
  }

  ghost predicate StageOk(w: World, tab: Tab, d: Draft) {
    && tab.drained <= d.nextChunkIndex
    && (tab.stage == Drained && Holds(w.db, d.id, d.generation) ==> Covered(w, d, tab.drained))
    && (tab.stage == Finishing ==> Covered(w, d, tab.drained))
    && (tab.stage == HandedOver ==> d.id in w.delivered)
  }

  ghost predicate PendingOk(w: World, tab: Tab) {
    match tab.pending
    case Nothing => true
    case Creating(d) =>
      && tab.draft.None? && d.id in w.used && d.id !in w.recorded
      && d.ownerId == tab.ownerId && d.custodyEpoch in w.epochs && d.generation == 1 && d.nextChunkIndex == 0
    case Claiming(d) => tab.draft.None? && d.ownerId == tab.ownerId
    case Appending(_, _) => tab.draft.Some?
    case Putting(next, landing) =>
      && tab.draft.Some?
      && var d := tab.draft.value;
         && next == d.(phase := next.phase, transcript := next.transcript, updatedAt := next.updatedAt)
         && landing in {Flushing, Finishing, GaveUp, Done}
         && (landing == Finishing && Holds(w.db, d.id, d.generation) ==> Covered(w, d, tab.drained))
  }

  ghost predicate RecoveryOk(w: World, tab: Tab) {
    match tab.recovery
    case Purging(read) => read in w.raised
    case Purged(read) => read in w.raised
    case Scanned(found) => forall d :: d in found ==> d.custodyEpoch in w.epochs
    case Offering(offered, _) => forall d :: d in offered ==> d.ownerId == tab.ownerId && d.custodyEpoch in w.epochs
    case _ => true
  }

  ghost predicate TabOk(w: World, tab: Tab) {
    && (tab.draft.Some? ==> CopyOk(w, tab.ownerId, tab.draft.value) && StageOk(w, tab, tab.draft.value))
    && (tab.draft.None? ==> tab.drained == 0)
    && PendingOk(w, tab)
    && RecoveryOk(w, tab)
  }

  /** Two tabs never hold the same lease, nor are they creating the same draft. */
  predicate Apart(a: Tab, b: Tab) {
    && (a.draft.Some? && b.draft.Some? && a.draft.value.id == b.draft.value.id ==>
          a.draft.value.generation != b.draft.value.generation)
    && (a.pending.Creating? && b.pending.Creating? ==> a.pending.created.id != b.pending.created.id)
  }

  ghost predicate SharedOk(w: World) {
    && (forall id :: DraftOk(w, id))
    && (forall id :: ChunksOk(w, id))
    && HistoryOk(w)
    && MessagesOk(w)
  }

  ghost predicate TabsOk(w: World) {
    && (forall t :: t in w.tabs ==> TabOk(w, w.tabs[t]))
    && (forall t, u :: t in w.tabs && u in w.tabs && t != u ==> Apart(w.tabs[t], w.tabs[u]))
  }

  ghost predicate Consistent(w: World) {
    SharedOk(w) && TabsOk(w)
  }
}
