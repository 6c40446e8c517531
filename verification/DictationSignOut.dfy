/** Sign-outs, fences and recoveries over every run, with writers and further sign-outs in between. */
module DictationSignOut {
  import opened Prelude
  import opened DictationStore
  import opened DictationWorld
  import opened DictationInvariant
  import opened DictationTheorems

  lemma StepKeepsEpochOld(w: World, s: Step, former: string)
    requires former in w.epochs && former != w.epoch
    ensures former in Do(w, s).epochs && former != Do(w, s).epoch
  {
    if Enabled(w, s) && s.Commit? {
      CommitOnlyWrites(w, s.t, s.now);
    }
  }

  /** An epoch that has been replaced never becomes current again. */
  lemma {:induction false} OldEpochsStayOld(w: World, steps: seq<Step>, former: string)
    requires former in w.epochs && former != w.epoch
    ensures former in Run(w, steps).epochs && former != Run(w, steps).epoch
    decreases |steps|
  {
    if steps != [] {
      StepKeepsEpochOld(w, steps[0], former);
      OldEpochsStayOld(Do(w, steps[0]), steps[1..], former);
    }
  }

  /** The custody epoch a writing step is admitted under. */
  function AdmittedEpoch(w: World, s: Step): Option<string> {
    match s
    case AdmitCreate(t, _, _) => Some(w.epoch)
    case AdmitClaim(t, candidate) => Some(candidate.custodyEpoch)
    case AdmitAppend(t, _, _) => if InSession(w, t) then Some(w.tabs[t].draft.value.custodyEpoch) else None
    case AdmitPut(t, _, _, _) => if InSession(w, t) then Some(w.tabs[t].draft.value.custodyEpoch) else None
    case _ => None
  }

  /** While a fence stands no writer is admitted, and no writer is ever admitted under a replaced epoch. */
  lemma SignOutEndsCustody(w: World, steps: seq<Step>, s: Step, former: string)
    requires former in w.epochs && former != w.epoch
    ensures var v := Run(w, steps);
            AdmittedEpoch(v, s).Some? && Enabled(v, s) ==> v.fence == None && AdmittedEpoch(v, s) != Some(former)
  {
    OldEpochsStayOld(w, steps, former);
  }

  /**
   * A recovery hands out only drafts of its own account; each is of the current epoch, or no
   * claim of it will ever be admitted again.  Owner and epoch are those it was created with.
   */
  lemma OfferedDraftsAreOwnAndCurrentOrDead(w: World, t: nat, d: Draft, steps: seq<Step>)
    requires Consistent(w) && t in w.tabs && w.tabs[t].recovery.Offering? && d in w.tabs[t].recovery.offered
    ensures d.ownerId == w.tabs[t].ownerId
    ensures d.custodyEpoch == w.epoch || !Enabled(Run(w, steps), AdmitClaim(t, d))
    ensures w.fence.Some? ==> !Enabled(w, AdmitClaim(t, d))
  {
    assert TabOk(w, w.tabs[t]);
    if d.custodyEpoch != w.epoch {
      OldEpochsStayOld(w, steps, d.custodyEpoch);
    }
  }

  /** A session only ever works on a draft its own account created, under the epoch it was created in. */
  lemma SessionsKeepTheirOwner(w: World, t: nat)
    requires Consistent(w) && InSession(w, t)
    ensures var d := w.tabs[t].draft.value;
            && d.ownerId == w.tabs[t].ownerId
            && d.id in w.born && w.born[d.id] == (w.tabs[t].ownerId, d.custodyEpoch)
            && (d.id in w.db.drafts ==> w.db.drafts[d.id].ownerId == w.tabs[t].ownerId)
  {
    var d := w.tabs[t].draft.value;
    assert TabOk(w, w.tabs[t]) && DraftOk(w, d.id);
  }

  ghost predicate FenceStands(w: World, value: string) {
    w.fence == Some(value) && forall t :: t in w.tabs ==> w.tabs[t].recovery != Purged(value)
  }

  predicate PurgesFor(w: World, s: Step, value: string) {
    s.PurgeForRecovery? && s.t in w.tabs && w.tabs[s.t].recovery == Purging(value)
  }

  lemma OnlyItsRecoveryClearsFence(w: World, s: Step, value: string)
    requires FenceStands(w, value) && !Raises(w, s) && !PurgesFor(w, s, value)
    ensures FenceStands(Do(w, s), value)
  {
    if Enabled(w, s) {
      if s.Commit? {
        CommitOnlyWrites(w, s.t, s.now);
      } else {
        OtherStepsKeepFence(w, s, value);
      }
    }
  }

  lemma OtherStepsKeepFence(w: World, s: Step, value: string)
    requires FenceStands(w, value) && Enabled(w, s) && !s.Commit? && !s.RaiseFence? && !PurgesFor(w, s, value)
    ensures FenceStands(Effect(w, s), value)
  {
    var v := Effect(w, s);
    assert v.fence == Some(value);
    forall t | t in v.tabs
      ensures v.tabs[t].recovery != Purged(value)
    {
      assert t in w.tabs ==> w.tabs[t].recovery != Purged(value);
    }
  }

  /** A sign-out. */
  predicate Raises(w: World, s: Step) {
    s.RaiseFence? && Enabled(w, s)
  }

  /** Nobody can have read a fence before it was raised. */
  lemma RaisedFenceStands(w: World, s: Step)
    requires Consistent(w) && Raises(w, s)
    ensures FenceStands(Do(w, s), s.value)
  {
    forall t | t in w.tabs
      ensures w.tabs[t].recovery != Purged(s.value)
    {
      assert TabOk(w, w.tabs[t]) && RecoveryOk(w, w.tabs[t]);
    }
  }

  predicate Quiet(w: World, steps: seq<Step>)
    decreases |steps|
  {
    steps == [] || (!Raises(w, steps[0]) && Quiet(Do(w, steps[0]), steps[1..]))
  }

  /**
   * Some step of the run empties the store for a recovery that had read the fence standing at that
   * moment, and no sign-out follows it.
   */
  ghost predicate LastFenceIsPurged(w: World, steps: seq<Step>)
    decreases |steps|
  {
    steps != [] &&
    var v := Do(w, steps[0]);
    || (w.fence.Some? && PurgesFor(w, steps[0], w.fence.value) && v.db == EMPTY_DB && Quiet(v, steps[1..]))
    || LastFenceIsPurged(v, steps[1..])
  }

  lemma PurgeEmpties(w: World, s: Step, value: string)
    requires PurgesFor(w, s, value)
    ensures Do(w, s).db == EMPTY_DB
  {
  }

  /**
   * However many sign-outs a run has: when no fence stands at its end, the last one raised came
   * down only after a recovery that had read that very value emptied the store.
   */
  lemma {:induction false} FenceOutlivesPurge(w: World, steps: seq<Step>)
    requires Consistent(w) && ((w.fence.Some? && FenceStands(w, w.fence.value)) || !Quiet(w, steps))
    requires Run(w, steps).fence == None
    ensures LastFenceIsPurged(w, steps)
    decreases |steps|
  {
    if steps != [] {
      var s, v := steps[0], Do(w, steps[0]);
      StepKeepsConsistent(w, s);
      if !Quiet(v, steps[1..]) {
        FenceOutlivesPurge(v, steps[1..]);
      } else if Raises(w, s) {
        RaisedFenceStands(w, s);
        FenceOutlivesPurge(v, steps[1..]);
      } else if PurgesFor(w, s, w.fence.value) {
        PurgeEmpties(w, s, w.fence.value);
      } else {
        OnlyItsRecoveryClearsFence(w, s, w.fence.value);
        FenceOutlivesPurge(v, steps[1..]);
      }
    }
  }

  /** From the first moment on: every fence that ever stood in a run and stands no more was outlived by its purge. */
  lemma EveryRunPurgesBehindItsFence(epoch: string, steps: seq<Step>)
    requires !Quiet(Fresh(epoch), steps) && Run(Fresh(epoch), steps).fence == None
    ensures LastFenceIsPurged(Fresh(epoch), steps)
  {
    FreshIsConsistent(epoch);
    FenceOutlivesPurge(Fresh(epoch), steps);
  }

  // ---------------------------------------------------------------------------
  // What recovery offers
  // ---------------------------------------------------------------------------

  /** Not on the way to an offer: at rest, or under a fence. */
  predicate Idle(w: World, t: nat) {
    t !in w.tabs || w.tabs[t].recovery in {Resting} || w.tabs[t].recovery.Purging? || w.tabs[t].recovery.Purged?
  }

  /** The step by which a recovery of `t` finds that no fence stands. */
  predicate FindsNoFence(w: World, s: Step, t: nat) {
    s == ReadFence(t) && Enabled(w, s) && w.fence == None
  }

  lemma OnlyAFreeReadLeavesIdle(w: World, s: Step, t: nat)
    requires Idle(w, t) && !FindsNoFence(w, s, t)
    ensures Idle(Do(w, s), t)
  {
    if Enabled(w, s) && s.Commit? {
      CommitOnlyWrites(w, s.t, s.now);
    }
  }

  ghost predicate SomeFreeRead(w: World, steps: seq<Step>, t: nat)
    decreases |steps|
  {
    steps != [] && (FindsNoFence(w, steps[0], t) || SomeFreeRead(Do(w, steps[0]), steps[1..], t))
  }

  /** Through any run, a view gets to offer drafts only by reading the fence while none stands. */
  lemma {:induction false} OffersFollowAFreeRead(w: World, steps: seq<Step>, t: nat)
    requires Idle(w, t) && !Idle(Run(w, steps), t)
    ensures SomeFreeRead(w, steps, t)
    decreases |steps|
  {
    if steps != [] && !FindsNoFence(w, steps[0], t) {
      OnlyAFreeReadLeavesIdle(w, steps[0], t);
      OffersFollowAFreeRead(Do(w, steps[0]), steps[1..], t);
    }
  }

  /** A fence stands before every step of the run. */
  ghost predicate FencedThroughout(w: World, steps: seq<Step>)
    decreases |steps|
  {
    steps == [] || (w.fence.Some? && FencedThroughout(Do(w, steps[0]), steps[1..]))
  }

  lemma {:induction false} FencedMeansNoFreeRead(w: World, steps: seq<Step>, t: nat)
    requires FencedThroughout(w, steps)
    ensures !SomeFreeRead(w, steps, t)
    decreases |steps|
  {
    if steps != [] {
      FencedMeansNoFreeRead(Do(w, steps[0]), steps[1..], t);
    }
  }

  /** While a fence stands, whatever happens, a view at rest never comes to offer a draft. */
  lemma NothingOfferedUnderFence(w: World, steps: seq<Step>, t: nat)
    requires Idle(w, t) && FencedThroughout(w, steps)
    ensures Idle(Run(w, steps), t)
  {
    FencedMeansNoFreeRead(w, steps, t);
    if !Idle(Run(w, steps), t) {
      OffersFollowAFreeRead(w, steps, t);
    }
  }

  /** The view is never at rest, nor gone, before any step of the run. */
  ghost predicate NeverAtRest(w: World, steps: seq<Step>, t: nat)
    decreases |steps|
  {
    steps == [] || (t in w.tabs && w.tabs[t].recovery != Resting && NeverAtRest(Do(w, steps[0]), steps[1..], t))
  }

  lemma {:induction false} NeverAtRestMeansNoFreeRead(w: World, steps: seq<Step>, t: nat)
    requires NeverAtRest(w, steps, t)
    ensures !SomeFreeRead(w, steps, t)
    decreases |steps|
  {
    if steps != [] {
      NeverAtRestMeansNoFreeRead(Do(w, steps[0]), steps[1..], t);
    }
  }

  /** A recovery that found a fence offers nothing: until it has come to rest it is purging or has purged. */
  lemma RecoveryUnderFenceOffersNothing(w: World, steps: seq<Step>, t: nat)
    requires t in w.tabs && (w.tabs[t].recovery.Purging? || w.tabs[t].recovery.Purged?) && NeverAtRest(w, steps, t)
    ensures Idle(Run(w, steps), t)
  {
    NeverAtRestMeansNoFreeRead(w, steps, t);
    if !Idle(Run(w, steps), t) {
      OffersFollowAFreeRead(w, steps, t);
    }
  }

  /** A partition of `t` that offers exactly the owner's drafts of the epoch current at that moment, none too old. */
  ghost predicate PartitionsTo(w: World, s: Step, t: nat, offered: set<Draft>) {
    && s.Partition? && s.t == t && Enabled(w, s)
    && forall d :: d in offered <==>
         && d in w.tabs[t].recovery.found && d.ownerId == w.tabs[t].ownerId && d.ownerId != ""
         && d.generation >= 1 && d.custodyEpoch == w.epoch && s.now - d.updatedAt <= DRAFT_TTL_MS
  }

  ghost predicate SomePartition(w: World, steps: seq<Step>, t: nat, offered: set<Draft>)
    decreases |steps|
  {
    steps != [] && (PartitionsTo(w, steps[0], t, offered) || SomePartition(Do(w, steps[0]), steps[1..], t, offered))
  }

  predicate Offers(w: World, t: nat, offered: set<Draft>) {
    t in w.tabs && w.tabs[t].recovery.Offering? && w.tabs[t].recovery.offered == offered
  }

  lemma OnlyAPartitionOffers(w: World, s: Step, t: nat, offered: set<Draft>)
    requires Offers(Do(w, s), t, offered) && !Offers(w, t, offered)
    ensures PartitionsTo(w, s, t, offered)
  {
    if s.Commit? && s.t in w.tabs {
      CommitOnlyWrites(w, s.t, s.now);
    }
  }

  /** Through any run, what a view comes to offer is what one partition admitted, unchanged since. */
  lemma {:induction false} OffersComeFromOnePartition(w: World, steps: seq<Step>, t: nat, offered: set<Draft>)
    requires Offers(Run(w, steps), t, offered) && !Offers(w, t, offered)
    ensures SomePartition(w, steps, t, offered)
    decreases |steps|
  {
    if steps != [] {
      var v := Do(w, steps[0]);
      if Offers(v, t, offered) {
        OnlyAPartitionOffers(w, steps[0], t, offered);
      } else {
        OffersComeFromOnePartition(v, steps[1..], t, offered);
      }
    }
  }
}
