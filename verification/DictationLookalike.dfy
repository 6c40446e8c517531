/**
 * Runs a browser cannot tell apart.  From a run that ends with chunk `i` of a draft still stored,
 * leave out all the server took of that draft from `i` on and what it answered about it: the rest
 * is a run too, and the browser ends in the same state.
 */
module DictationLookalike {
  import opened Prelude
  import opened DictationStore
  import opened DictationWorld
  import opened DictationInvariant
  import opened DictationTheorems

  /** What a browser can see of a world: its database, its local storage and its tabs. */
  predicate LooksSame(w: World, v: World) {
    v.db == w.db && v.fence == w.fence && v.epoch == w.epoch && v.tabs == w.tabs
  }

  function CutServer(server: map<string, seq<Audio>>, id: string, i: nat): map<string, seq<Audio>> {
    if id in server && |server[id]| > i then server[id := server[id][..i]] else server
  }

  function CutAcks(acks: set<(string, int)>, id: string, i: nat): set<(string, int)> {
    set a | a in acks && (a.0 != id || a.1 < i)
  }

  function WithNetwork(w: World, server: map<string, seq<Audio>>, acks: set<(string, int)>): World {
    w.(server := server, acks := acks)
  }

  /** The world in which the server has taken no chunk of the draft from `i` on. */
  function Cut(w: World, id: string, i: nat): World {
    WithNetwork(w, CutServer(w.server, id, i), CutAcks(w.acks, id, i))
  }

  /** The steps only the server knows of, once they concern chunks from `i` on. */
  predicate Unseen(w: World, s: Step, id: string, i: nat) {
    || (s.Receive? && s.id == id && s.index >= i)
    || (s.Reply? && s.id == id && id in w.server && |w.server[id]| > i)
  }

  function Seen(w: World, steps: seq<Step>, id: string, i: nat): seq<Step>
    decreases |steps|
  {
    if steps == [] then []
    else (if Unseen(w, steps[0], id, i) then [] else [steps[0]]) + Seen(Do(w, steps[0]), steps[1..], id, i)
  }

  // ---------------------------------------------------------------------------
  // A recorded chunk that has left the store does not come back
  // ---------------------------------------------------------------------------

  ghost predicate Gone(w: World, id: string, i: nat) {
    id in w.recorded && i < |w.recorded[id]| && i !in Stored(w.db, id)
  }

  lemma AppendKeepsGone(w: World, t: nat, now: int, id: string, i: nat)
    requires Consistent(w) && InSession(w, t) && w.tabs[t].pending.Appending? && Gone(w, id, i)
    ensures Gone(CommitAppend(w, t, now), id, i)
  {
    assert TabOk(w, w.tabs[t]) && DraftOk(w, w.tabs[t].draft.value.id);
  }

  lemma CommitKeepsGone(w: World, t: nat, now: int, id: string, i: nat)
    requires Consistent(w) && t in w.tabs && Gone(w, id, i)
    ensures Gone(CommitPending(w, t, now), id, i)
  {
    assert TabOk(w, w.tabs[t]);
    if InSession(w, t) && w.tabs[t].pending.Appending? {
      AppendKeepsGone(w, t, now, id, i);
    }
  }

  lemma OtherStepsKeepGone(w: World, s: Step, id: string, i: nat)
    requires Enabled(w, s) && !s.Commit? && Gone(w, id, i)
    ensures Gone(Effect(w, s), id, i)
  {
    OnlyCommitsRecord(w, s);
  }

  lemma StepKeepsGone(w: World, s: Step, id: string, i: nat)
    requires Consistent(w) && Gone(w, id, i)
    ensures Gone(Do(w, s), id, i)
  {
    if Enabled(w, s) {
      if s.Commit? {
        CommitKeepsGone(w, s.t, s.now, id, i);
      } else {
        OtherStepsKeepGone(w, s, id, i);
      }
    }
  }

  lemma {:induction false} RunKeepsGone(w: World, steps: seq<Step>, id: string, i: nat)
    requires Consistent(w) && Gone(w, id, i)
    ensures Gone(Run(w, steps), id, i)
    decreases |steps|
  {
    if steps != [] {
      StepKeepsConsistent(w, steps[0]);
      StepKeepsGone(w, steps[0], id, i);
      RunKeepsGone(Do(w, steps[0]), steps[1..], id, i);
    }
  }

  // ---------------------------------------------------------------------------
  // One step, with the server cut
  // ---------------------------------------------------------------------------

  predicate ReadsNetwork(s: Step) {
    s.Receive? || s.Reply? || s.Acknowledge?
  }

  lemma EnabledIgnoresNetwork(w: World, s: Step, server: map<string, seq<Audio>>, acks: set<(string, int)>)
    requires !ReadsNetwork(s)
    ensures Enabled(WithNetwork(w, server, acks), s) == Enabled(w, s)
  {
  }

  lemma SessionStepIgnoresNetwork(w: World, s: Step, server: map<string, seq<Audio>>, acks: set<(string, int)>)
    requires !ReadsNetwork(s) && !s.Commit? && !IsFenceStep(s) && !IsRecoveryStep(s)
    requires Enabled(w, s) && Enabled(WithNetwork(w, server, acks), s)
    ensures Effect(WithNetwork(w, server, acks), s) == WithNetwork(Effect(w, s), server, acks)
    ensures Effect(w, s).server == w.server && Effect(w, s).acks == w.acks
  {
  }

  lemma FenceStepIgnoresNetwork(w: World, s: Step, server: map<string, seq<Audio>>, acks: set<(string, int)>)
    requires IsFenceStep(s) && Enabled(w, s) && Enabled(WithNetwork(w, server, acks), s)
    ensures Effect(WithNetwork(w, server, acks), s) == WithNetwork(Effect(w, s), server, acks)
    ensures Effect(w, s).server == w.server && Effect(w, s).acks == w.acks
  {
  }

  lemma RecoveryStepIgnoresNetwork(w: World, s: Step, server: map<string, seq<Audio>>, acks: set<(string, int)>)
    requires IsRecoveryStep(s) && Enabled(w, s) && Enabled(WithNetwork(w, server, acks), s)
    ensures Effect(WithNetwork(w, server, acks), s) == WithNetwork(Effect(w, s), server, acks)
    ensures Effect(w, s).server == w.server && Effect(w, s).acks == w.acks
  {
  }

  lemma ClaimIgnoresNetwork(w: World, t: nat, now: int, server: map<string, seq<Audio>>, acks: set<(string, int)>)
    requires t in w.tabs && w.tabs[t].pending.Claiming?
    ensures CommitClaim(WithNetwork(w, server, acks), t, now) == WithNetwork(CommitClaim(w, t, now), server, acks)
    ensures CommitClaim(w, t, now).server == w.server && CommitClaim(w, t, now).acks == w.acks
  {
  }

  lemma AppendIgnoresNetwork(w: World, t: nat, now: int, server: map<string, seq<Audio>>, acks: set<(string, int)>)
    requires InSession(w, t) && w.tabs[t].pending.Appending?
    ensures CommitAppend(WithNetwork(w, server, acks), t, now) == WithNetwork(CommitAppend(w, t, now), server, acks)
    ensures CommitAppend(w, t, now).server == w.server && CommitAppend(w, t, now).acks == w.acks
  {
  }

  lemma PutIgnoresNetwork(w: World, t: nat, server: map<string, seq<Audio>>, acks: set<(string, int)>)
    requires InSession(w, t) && w.tabs[t].pending.Putting?
    ensures CommitPut(WithNetwork(w, server, acks), t) == WithNetwork(CommitPut(w, t), server, acks)
    ensures CommitPut(w, t).server == w.server && CommitPut(w, t).acks == w.acks
  {
  }

  lemma CommitIgnoresNetwork(w: World, t: nat, now: int, server: map<string, seq<Audio>>, acks: set<(string, int)>)
    requires t in w.tabs && !w.tabs[t].pending.Creating?
    ensures CommitPending(WithNetwork(w, server, acks), t, now) == WithNetwork(CommitPending(w, t, now), server, acks)
    ensures CommitPending(w, t, now).server == w.server && CommitPending(w, t, now).acks == w.acks
  {
    match w.tabs[t].pending
    case Nothing =>
    case Claiming(_) => ClaimIgnoresNetwork(w, t, now, server, acks);
    case Appending(_, _) =>
      if InSession(w, t) {
        AppendIgnoresNetwork(w, t, now, server, acks);
      }
    case Putting(_, _) =>
      if InSession(w, t) {
        PutIgnoresNetwork(w, t, server, acks);
      }
  }

  lemma CreateCuts(w: World, t: nat, id: string, i: nat)
    requires t in w.tabs && w.tabs[t].pending.Creating?
    ensures Cut(CommitCreate(w, t), id, i) == CommitCreate(Cut(w, id, i), t)
  {
    var x := w.tabs[t].pending.created.id;
    assert CutServer(w.server[x := []], id, i) == CutServer(w.server, id, i)[x := []];
  }

  lemma ReceiveCuts(w: World, s: Step, id: string, i: nat)
    requires s.Receive?
    ensures Cut(Do(w, s), id, i) == if Unseen(w, s, id, i) then Cut(w, id, i) else Do(Cut(w, id, i), s)
  {
    if Enabled(w, s) && s.id == id && s.index >= i {
      assert (w.server[id] + [s.audio])[..i] == w.server[id][..i];
      if s.index == i {
        assert w.server[id][..i] == w.server[id];
      }
      assert CutServer(w.server[id := w.server[id] + [s.audio]], id, i) == CutServer(w.server, id, i);
    } else if Enabled(w, s) && s.id != id {
      assert CutServer(w.server[s.id := w.server[s.id] + [s.audio]], id, i) == CutServer(w.server, id, i)[s.id := w.server[s.id] + [s.audio]];
    }
  }

  lemma ReplyCuts(w: World, s: Step, id: string, i: nat)
    requires s.Reply?
    ensures Cut(Do(w, s), id, i) == if Unseen(w, s, id, i) then Cut(w, id, i) else Do(Cut(w, id, i), s)
  {
    if Enabled(w, s) {
      var a := (s.id, |w.server[s.id]| - 1);
      assert CutAcks(w.acks + {a}, id, i) == if Unseen(w, s, id, i) then CutAcks(w.acks, id, i) else CutAcks(w.acks, id, i) + {a};
    }
  }

  /** Whoever takes in an acknowledgement of chunk `i` loses it from the store for good. */
  lemma AcknowledgeCuts(w: World, s: Step, id: string, i: nat)
    requires Consistent(w) && s.Acknowledge? && !Gone(Do(w, s), id, i)
    ensures Cut(Do(w, s), id, i) == Do(Cut(w, id, i), s)
  {
    if Enabled(w, s) {
      var x := w.tabs[s.t].draft.value.id;
      assert (x, s.through) in w.acks;
      assert s.through < |w.server[x]| <= |w.recorded[x]|;
      assert x != id || s.through < i;
    }
  }

  lemma CommitCuts(w: World, t: nat, now: int, id: string, i: nat)
    requires t in w.tabs
    ensures Cut(CommitPending(w, t, now), id, i) == CommitPending(Cut(w, id, i), t, now)
  {
    if w.tabs[t].pending.Creating? {
      CreateCuts(w, t, id, i);
    } else {
      CommitIgnoresNetwork(w, t, now, CutServer(w.server, id, i), CutAcks(w.acks, id, i));
    }
  }

  lemma OtherStepCuts(w: World, s: Step, id: string, i: nat)
    requires !ReadsNetwork(s) && Enabled(w, s) && Enabled(Cut(w, id, i), s)
    ensures Cut(Effect(w, s), id, i) == Effect(Cut(w, id, i), s)
  {
    var server, acks := CutServer(w.server, id, i), CutAcks(w.acks, id, i);
    if s.Commit? {
      CommitCuts(w, s.t, s.now, id, i);
    } else if IsFenceStep(s) {
      FenceStepIgnoresNetwork(w, s, server, acks);
    } else if IsRecoveryStep(s) {
      RecoveryStepIgnoresNetwork(w, s, server, acks);
    } else {
      SessionStepIgnoresNetwork(w, s, server, acks);
    }
  }

  lemma StepCuts(w: World, s: Step, id: string, i: nat)
    requires Consistent(w) && !Gone(Do(w, s), id, i)
    ensures Cut(Do(w, s), id, i) == if Unseen(w, s, id, i) then Cut(w, id, i) else Do(Cut(w, id, i), s)
  {
    if s.Receive? {
      ReceiveCuts(w, s, id, i);
    } else if s.Reply? {
      ReplyCuts(w, s, id, i);
    } else if s.Acknowledge? {
      AcknowledgeCuts(w, s, id, i);
    } else {
      EnabledIgnoresNetwork(w, s, CutServer(w.server, id, i), CutAcks(w.acks, id, i));
      if Enabled(w, s) {
        OtherStepCuts(w, s, id, i);
      }
    }
  }

  // ---------------------------------------------------------------------------
  // Whole runs
  // ---------------------------------------------------------------------------

  /** A run that does not end with chunk `i` gone reaches the cut world without its unseen steps. */
  lemma {:induction false} RunCuts(w: World, steps: seq<Step>, id: string, i: nat)
    requires Consistent(w) && !Gone(Run(w, steps), id, i)
    ensures Run(Cut(w, id, i), Seen(w, steps, id, i)) == Cut(Run(w, steps), id, i)
    decreases |steps|
  {
    if steps != [] {
      var s, v, rest := steps[0], Do(w, steps[0]), steps[1..];
      StepKeepsConsistent(w, s);
      if Gone(v, id, i) {
        RunKeepsGone(v, rest, id, i);
      }
      StepCuts(w, s, id, i);
      RunCuts(v, rest, id, i);
      var seen := Seen(v, rest, id, i);
      assert !Unseen(w, s, id, i) ==> ([s] + seen)[0] == s && ([s] + seen)[1..] == seen;
      assert Unseen(w, s, id, i) ==> [] + seen == seen;
    }
  }

  /**
   * If chunk `i` is still stored at the end of a run, another run leaves the browser in the very
   * same state while the server has at most the chunks below `i`.
   */
  lemma StoredChunkMayBeUnaccepted(epoch: string, steps: seq<Step>, id: string, i: nat) returns (other: seq<Step>)
    requires i in Stored(Run(Fresh(epoch), steps).db, id)
    ensures LooksSame(Run(Fresh(epoch), steps), Run(Fresh(epoch), other))
    ensures var v := Run(Fresh(epoch), other); id in v.server && |v.server[id]| <= i
  {
    var w := Run(Fresh(epoch), steps);
    FreshIsConsistent(epoch);
    RunKeepsConsistent(Fresh(epoch), steps);
    assert ChunksOk(w, id);
    RunCuts(Fresh(epoch), steps, id, i);
    assert Cut(Fresh(epoch), id, i) == Fresh(epoch);
    other := Seen(Fresh(epoch), steps, id, i);
  }
}
