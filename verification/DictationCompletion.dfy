/** A finished draft keeps its transcript: nothing but a removal takes it out of the store again. */
module DictationCompletion {
  import opened Prelude
  import opened DictationStore
  import opened DictationWorld
  import opened DictationInvariant
  import opened DictationTheorems

  /** A session whose copy is complete has no phase left to write; the one write that completes a copy ends it. */
  predicate Settled(tab: Tab) {
    && (tab.draft.Some? && tab.draft.value.phase == Phase.Complete ==> tab.stage in {Live, Done, HandedOver, Closed} && !tab.pending.Putting?)
    && (tab.pending.Putting? && tab.pending.next.phase == Phase.Complete ==> tab.pending.landing == Done)
  }

  ghost predicate AllSettled(w: World) {
    forall t :: t in w.tabs ==> Settled(w.tabs[t])
  }

  lemma AdmissionKeepsSettled(w: World, s: Step)
    requires AllSettled(w) && Enabled(w, s) && IsAdmission(s)
    ensures AllSettled(Effect(w, s))
  {
  }

  lemma CreateKeepsSettled(w: World, t: nat)
    requires Consistent(w) && AllSettled(w) && t in w.tabs && w.tabs[t].pending.Creating?
    ensures AllSettled(CommitCreate(w, t))
  {
  }

  lemma ClaimKeepsSettled(w: World, t: nat, now: int)
    requires AllSettled(w) && t in w.tabs && w.tabs[t].pending.Claiming? && TabOk(w, w.tabs[t])
    ensures AllSettled(CommitClaim(w, t, now))
  {
  }

  lemma AppendKeepsSettled(w: World, t: nat, now: int)
    requires AllSettled(w) && InSession(w, t) && w.tabs[t].pending.Appending?
    ensures AllSettled(CommitAppend(w, t, now))
  {
  }

  lemma PutKeepsSettled(w: World, t: nat)
    requires AllSettled(w) && InSession(w, t) && w.tabs[t].pending.Putting?
    ensures AllSettled(CommitPut(w, t))
  {
    assert Settled(w.tabs[t]);
  }

  lemma CommitKeepsSettled(w: World, t: nat, now: int)
    requires Consistent(w) && AllSettled(w) && t in w.tabs
    ensures AllSettled(CommitPending(w, t, now))
  {
    assert TabOk(w, w.tabs[t]);
    match w.tabs[t].pending
    case Nothing =>
    case Creating(_) => CreateKeepsSettled(w, t);
    case Claiming(_) => ClaimKeepsSettled(w, t, now);
    case Appending(_, _) =>
      if InSession(w, t) {
        AppendKeepsSettled(w, t, now);
      }
    case Putting(_, _) =>
      if InSession(w, t) {
        PutKeepsSettled(w, t);
      }
  }

  lemma SessionStepsKeepSettled(w: World, s: Step)
    requires AllSettled(w) && Enabled(w, s) && !IsAdmission(s) && !s.Commit? && !IsFenceStep(s) && !IsRecoveryStep(s)
    ensures AllSettled(Effect(w, s))
  {
  }

  lemma RecoveryStepsKeepSettled(w: World, s: Step)
    requires AllSettled(w) && Enabled(w, s) && (IsFenceStep(s) || IsRecoveryStep(s))
    ensures AllSettled(Effect(w, s))
  {
  }

  lemma StepKeepsSettled(w: World, s: Step)
    requires Consistent(w) && AllSettled(w)
    ensures AllSettled(Do(w, s))
  {
    if Enabled(w, s) {
      if IsAdmission(s) {
        AdmissionKeepsSettled(w, s);
      } else if s.Commit? {
        CommitKeepsSettled(w, s.t, s.now);
      } else if IsFenceStep(s) || IsRecoveryStep(s) {
        RecoveryStepsKeepSettled(w, s);
      } else {
        SessionStepsKeepSettled(w, s);
      }
    }
  }

  /** The draft is gone, or complete with this transcript. */
  ghost predicate GoneOrComplete(w: World, id: string, transcript: string) {
    id in w.recorded &&
    (id in w.db.drafts ==> w.db.drafts[id].phase == Phase.Complete && w.db.drafts[id].transcript == Some(transcript))
  }

  lemma WriteKeepsTranscript(w: World, t: nat, now: int, id: string, transcript: string)
    requires Consistent(w) && AllSettled(w) && InSession(w, t) && GoneOrComplete(w, id, transcript)
    requires w.tabs[t].pending.Appending? || w.tabs[t].pending.Putting?
    ensures GoneOrComplete(CommitPending(w, t, now), id, transcript)
  {
    assert TabOk(w, w.tabs[t]) && Settled(w.tabs[t]);
    assert DraftOk(w, w.tabs[t].draft.value.id);
  }

  lemma CommitKeepsTranscript(w: World, t: nat, now: int, id: string, transcript: string)
    requires Consistent(w) && AllSettled(w) && t in w.tabs && GoneOrComplete(w, id, transcript)
    ensures GoneOrComplete(CommitPending(w, t, now), id, transcript)
  {
    assert TabOk(w, w.tabs[t]);
    if InSession(w, t) && (w.tabs[t].pending.Appending? || w.tabs[t].pending.Putting?) {
      WriteKeepsTranscript(w, t, now, id, transcript);
    }
  }

  lemma StepKeepsTranscript(w: World, s: Step, id: string, transcript: string)
    requires Consistent(w) && AllSettled(w) && GoneOrComplete(w, id, transcript)
    ensures GoneOrComplete(Do(w, s), id, transcript)
  {
    if Enabled(w, s) {
      if s.Commit? {
        CommitKeepsTranscript(w, s.t, s.now, id, transcript);
      } else {
        OnlyCommitsRecord(w, s);
        if !MayRemove(s) {
          OtherStepsKeepDrafts(w, s);
        } else if id in Effect(w, s).db.drafts {
          RemovalKeepsTheRest(w, s, id);
        }
      }
    }
  }

  lemma {:induction false} RunKeepsTranscript(w: World, steps: seq<Step>, id: string, transcript: string)
    requires Consistent(w) && AllSettled(w) && GoneOrComplete(w, id, transcript)
    ensures GoneOrComplete(Run(w, steps), id, transcript)
    decreases |steps|
  {
    if steps != [] {
      StepKeepsConsistent(w, steps[0]);
      StepKeepsSettled(w, steps[0]);
      StepKeepsTranscript(w, steps[0], id, transcript);
      RunKeepsTranscript(Do(w, steps[0]), steps[1..], id, transcript);
    }
  }

  lemma {:induction false} RunKeepsSettled(w: World, steps: seq<Step>)
    requires Consistent(w) && AllSettled(w)
    ensures AllSettled(Run(w, steps)) && Consistent(Run(w, steps))
    decreases |steps|
  {
    if steps != [] {
      StepKeepsConsistent(w, steps[0]);
      StepKeepsSettled(w, steps[0]);
      RunKeepsSettled(Do(w, steps[0]), steps[1..]);
    }
  }

  /**
   * In every reachable world, whatever happens afterwards in any tab: a complete draft stays
   * complete with the transcript it has until it is removed.
   */
  lemma CompleteDraftsKeepTheirTranscript(epoch: string, steps: seq<Step>, more: seq<Step>, id: string)
    requires var w := Run(Fresh(epoch), steps);
             id in w.db.drafts && w.db.drafts[id].phase == Phase.Complete && w.db.drafts[id].transcript.Some?
    ensures var w, v := Run(Fresh(epoch), steps), Run(Run(Fresh(epoch), steps), more);
            id in v.db.drafts ==> v.db.drafts[id].phase == Phase.Complete && v.db.drafts[id].transcript == w.db.drafts[id].transcript
  {
    FreshIsConsistent(epoch);
    RunKeepsSettled(Fresh(epoch), steps);
    var w := Run(Fresh(epoch), steps);
    assert DraftOk(w, id);
    RunKeepsTranscript(w, more, id, w.db.drafts[id].transcript.value);
  }

  /**
   * Completing stores the transcript it was given: whatever the other tabs do between the last
   * check and the transaction, if the session still has the lease and nothing else pending, its
   * draft is complete with just this transcript, and so is its copy.
   */
  lemma CompletingStoresTranscript(w: World, t: nat, transcript: string, now: int, between: seq<Step>, later: int)
    requires Consistent(w) && Enabled(w, AdmitPut(t, Phase.Complete, transcript, now))
    requires var v := Run(Do(w, AdmitPut(t, Phase.Complete, transcript, now)), between);
             && t in v.tabs && v.tabs[t] == Do(w, AdmitPut(t, Phase.Complete, transcript, now)).tabs[t]
             && var d := w.tabs[t].draft.value; Holds(v.db, d.id, d.generation)
    ensures var v := Do(Run(Do(w, AdmitPut(t, Phase.Complete, transcript, now)), between), Commit(t, later));
            var d := w.tabs[t].draft.value;
            && v.db.drafts[d.id] == d.(phase := Phase.Complete, transcript := Some(transcript), updatedAt := now)
            && v.tabs[t].draft == Some(v.db.drafts[d.id]) && v.tabs[t].stage == Done
  {
    var admitted := Do(w, AdmitPut(t, Phase.Complete, transcript, now));
    StepKeepsConsistent(w, AdmitPut(t, Phase.Complete, transcript, now));
    RunKeepsConsistent(admitted, between);
    var v := Run(admitted, between);
    assert TabOk(v, v.tabs[t]);
    PutLands(v, t, later);
  }

  lemma PutLands(v: World, t: nat, later: int)
    requires InSession(v, t) && v.tabs[t].pending.Putting? && CopyOk(v, v.tabs[t].ownerId, v.tabs[t].draft.value)
    requires var d := v.tabs[t].draft.value; Holds(v.db, d.id, d.generation)
    ensures var d, p, after := v.tabs[t].draft.value, v.tabs[t].pending, Do(v, Commit(t, later));
            && d.id in after.db.drafts && after.db.drafts[d.id] == p.next
            && after.tabs == v.tabs[t := v.tabs[t].(draft := Some(p.next), stage := p.landing, pending := Nothing)]
  {
    var d := v.tabs[t].draft.value;
    assert v.db.drafts[d.id] == d;
  }
}
