/**
 * The browser's dictation write-ahead log (apps/web/lib/dictation-storage.ts): draft records
 * and audio chunks in IndexedDB, a purge fence and a custody epoch in local storage.
 *
 * One IndexedDB transaction is one function on the database; the methods of
 * `DictationDraftStore` check the fence and the epoch and then run the transaction.
 */
module DictationStore {
  import opened Prelude

  const DRAFT_TTL_MS := 6 * 60 * 60_000

  type Audio = seq<int>

  datatype Phase = Recording | Uploading | Finalizing | Complete | Failed

  datatype Draft = Draft(
    id: string, ownerId: string, custodyEpoch: string, generation: int, updatedAt: int,
    durationMs: int, nextChunkIndex: nat, phase: Phase, transcript: Option<string>)

  /** The drafts store and the chunks store, the latter grouped by its draft index. */
  datatype Db = Db(drafts: map<string, Draft>, chunks: map<string, map<nat, Audio>>)

  datatype StoreError = BeingCleared | ExpiredEpoch | Superseded

  datatype DeleteReply = Absent | Deleted | DeleteSuperseded

  function Stored(db: Db, id: string): map<nat, Audio> {
    if id in db.chunks then db.chunks[id] else map[]
  }

  predicate Holds(db: Db, id: string, generation: int) {
    id in db.drafts && db.drafts[id].generation == generation
  }

  // ---------------------------------------------------------------------------
  // Transactions
  // ---------------------------------------------------------------------------

  function PutTxn(db: Db, draft: Draft): Db {
    db.(drafts := db.drafts[draft.id := draft])
  }

  predicate Claimable(db: Db, draft: Draft) {
    && Holds(db, draft.id, draft.generation)
    && db.drafts[draft.id].ownerId == draft.ownerId
    && db.drafts[draft.id].custodyEpoch == draft.custodyEpoch
  }

  function Claimed(db: Db, draft: Draft, now: int): Draft
    requires Claimable(db, draft)
  {
    db.drafts[draft.id].(generation := draft.generation + 1, updatedAt := now)
  }

  function ClaimTxn(db: Db, draft: Draft, now: int): Db {
    if Claimable(db, draft) then db.(drafts := db.drafts[draft.id := Claimed(db, draft, now)]) else db
  }

  function Appended(draft: Draft, durationMs: int, now: int): Draft {
    draft.(durationMs := durationMs, nextChunkIndex := draft.nextChunkIndex + 1, updatedAt := now)
  }

  function AppendTxn(db: Db, draft: Draft, audio: Audio, durationMs: int, now: int): Db {
    if Holds(db, draft.id, draft.generation) then
      Db(db.drafts[draft.id := Appended(draft, durationMs, now)],
         db.chunks[draft.id := Stored(db, draft.id)[draft.nextChunkIndex := audio]])
    else db
  }

  predicate Replaceable(db: Db, expected: Draft) {
    Holds(db, expected.id, expected.generation) && db.drafts[expected.id].custodyEpoch == expected.custodyEpoch
  }

  function CompareAndPutTxn(db: Db, expected: Draft, next: Draft): Db {
    if Replaceable(db, expected) then db.(drafts := db.drafts[expected.id := next]) else db
  }

  /** Drop the stored chunks a server acknowledgement covers. */
  function AcknowledgeTxn(db: Db, id: string, through: int): Db {
    if id in db.chunks then
      db.(chunks := db.chunks[id := map i | i in db.chunks[id] && i > through :: db.chunks[id][i]])
    else db
  }

  function DeleteReplyOf(db: Db, id: string, generation: Option<int>): DeleteReply {
    if id !in db.drafts then Absent
    else if generation.Some? && db.drafts[id].generation != generation.value then DeleteSuperseded
    else Deleted
  }

  function DeleteTxn(db: Db, id: string, generation: Option<int>): Db {
    if DeleteReplyOf(db, id, generation).Deleted? then Db(db.drafts - {id}, db.chunks - {id}) else db
  }

  const EMPTY_DB := Db(map[], map[])

  // ---------------------------------------------------------------------------
  // Recovery
  // ---------------------------------------------------------------------------

  predicate Admissible(draft: Draft, ownerId: string, now: int, custodyEpoch: string) {
    && draft.ownerId != ""
    && draft.generation >= 1
    && draft.custodyEpoch == custodyEpoch
    && draft.ownerId == ownerId
    && now - draft.updatedAt <= DRAFT_TTL_MS
  }

  function InsertByRecency(draft: Draft, sorted: seq<Draft>): seq<Draft> {
    if sorted == [] || draft.updatedAt > sorted[0].updatedAt then [draft] + sorted
    else [sorted[0]] + InsertByRecency(draft, sorted[1..])
  }

  predicate NewestFirst(drafts: seq<Draft>) {
    forall i, j :: 0 <= i < j < |drafts| ==> drafts[i].updatedAt >= drafts[j].updatedAt
  }

  lemma {:induction false} InsertByRecencyPermutes(draft: Draft, sorted: seq<Draft>)
    ensures multiset(InsertByRecency(draft, sorted)) == multiset(sorted) + multiset{draft}
  {
    if sorted != [] && draft.updatedAt <= sorted[0].updatedAt {
      InsertByRecencyPermutes(draft, sorted[1..]);
      assert sorted == [sorted[0]] + sorted[1..];
    }
  }

  lemma {:induction false} InsertByRecencySorts(draft: Draft, sorted: seq<Draft>)
    requires NewestFirst(sorted)
    ensures NewestFirst(InsertByRecency(draft, sorted))
    ensures forall x :: x in InsertByRecency(draft, sorted) ==> x == draft || x in sorted
  {
    if sorted != [] && draft.updatedAt <= sorted[0].updatedAt {
      InsertByRecencySorts(draft, sorted[1..]);
      var rest := InsertByRecency(draft, sorted[1..]);
      assert forall i :: 0 <= i < |rest| ==> rest[i] in rest;
      assert forall x :: x in rest ==> sorted[0].updatedAt >= x.updatedAt;
    }
  }

  /** The drafts the split admits, in the order given. */
  function AdmittedOf(drafts: seq<Draft>, ownerId: string, now: int, custodyEpoch: string): seq<Draft> {
    if drafts == [] then []
    else
      var n := |drafts| - 1;
      AdmittedOf(drafts[..n], ownerId, now, custodyEpoch) +
      if Admissible(drafts[n], ownerId, now, custodyEpoch) then [drafts[n]] else []
  }

  function RejectedIds(drafts: seq<Draft>, ownerId: string, now: int, custodyEpoch: string): seq<string> {
    if drafts == [] then []
    else
      var n := |drafts| - 1;
      RejectedIds(drafts[..n], ownerId, now, custodyEpoch) +
      if Admissible(drafts[n], ownerId, now, custodyEpoch) then [] else [drafts[n].id]
  }

  /** Split recovered drafts: the owner's current ones newest first, and the ids to purge. */
  method PartitionDrafts(drafts: seq<Draft>, ownerId: string, now: int, custodyEpoch: string)
    returns (admitted: seq<Draft>, purgeIds: seq<string>)
    ensures NewestFirst(admitted)
    ensures multiset(admitted) == multiset(AdmittedOf(drafts, ownerId, now, custodyEpoch))
    ensures purgeIds == RejectedIds(drafts, ownerId, now, custodyEpoch)
  {
    var kept: seq<Draft> := [];
    purgeIds := [];
    for k := 0 to |drafts|
      invariant kept == AdmittedOf(drafts[..k], ownerId, now, custodyEpoch)
      invariant purgeIds == RejectedIds(drafts[..k], ownerId, now, custodyEpoch)
    {
      assert drafts[..k + 1][..k] == drafts[..k];
      var draft := drafts[k];
      var stale := now - draft.updatedAt > DRAFT_TTL_MS;
      if draft.ownerId == "" || draft.generation < 1 || draft.custodyEpoch != custodyEpoch || draft.ownerId != ownerId || stale {
        purgeIds := purgeIds + [draft.id];
      } else {
        kept := kept + [draft];
      }
    }
    assert drafts[..|drafts|] == drafts;
    admitted := [];
    for k := 0 to |kept|
      invariant NewestFirst(admitted)
      invariant multiset(admitted) == multiset(kept[..k])
    {
      InsertByRecencySorts(kept[k], admitted);
      InsertByRecencyPermutes(kept[k], admitted);
      assert kept[..k + 1] == kept[..k] + [kept[k]];
      admitted := InsertByRecency(kept[k], admitted);
    }
    assert kept[..|kept|] == kept;
  }

  /** Every draft is admitted or purged, and never a draft of another owner or epoch. */
  lemma {:induction false} PartitionCovers(drafts: seq<Draft>, ownerId: string, now: int, custodyEpoch: string, draft: Draft)
    ensures draft in AdmittedOf(drafts, ownerId, now, custodyEpoch) <==>
            draft in drafts && Admissible(draft, ownerId, now, custodyEpoch)
    ensures draft in AdmittedOf(drafts, ownerId, now, custodyEpoch) <==>
            && draft in drafts && draft.ownerId == ownerId && ownerId != "" && draft.custodyEpoch == custodyEpoch
            && draft.generation >= 1 && now - draft.updatedAt <= 21_600_000
    ensures draft in drafts && !Admissible(draft, ownerId, now, custodyEpoch) ==>
              draft.id in RejectedIds(drafts, ownerId, now, custodyEpoch)
    ensures forall id :: id in RejectedIds(drafts, ownerId, now, custodyEpoch) ==>
              exists k :: 0 <= k < |drafts| && drafts[k].id == id && !Admissible(drafts[k], ownerId, now, custodyEpoch)
  {
    if drafts != [] {
      var n := |drafts| - 1;
      PartitionCovers(drafts[..n], ownerId, now, custodyEpoch, draft);
      assert drafts == drafts[..n] + [drafts[n]];
      assert forall k :: 0 <= k < n ==> drafts[..n][k] == drafts[k];
    }
  }

  // ---------------------------------------------------------------------------
  // The store
  // ---------------------------------------------------------------------------

  class DictationDraftStore {
    var drafts: map<string, Draft>
    var chunks: map<string, map<nat, Audio>>
    /** Local storage shared by all tabs. */
    var fence: Option<string>
    var epoch: string

    constructor (epoch: string)
      ensures View() == EMPTY_DB && fence == None && this.epoch == epoch
    {
      drafts, chunks, fence, this.epoch := map[], map[], None, epoch;
    }

    function View(): Db
      reads this
    {
      Db(drafts, chunks)
    }

    /** The sign-out check every writer repeats inside its transaction. */
    predicate Open(custodyEpoch: string)
      reads this
    {
      fence == None && custodyEpoch == epoch
    }

    method PutDraft(draft: Draft) returns (error: Option<StoreError>)
      modifies this`drafts
      ensures View() == if error == None then PutTxn(old(View()), draft) else old(View())
      ensures error == None <==> Open(draft.custodyEpoch)
      ensures error == Some(BeingCleared) <==> fence.Some?
      ensures error == Some(ExpiredEpoch) <==> fence.None? && draft.custodyEpoch != epoch
    {
      if fence.Some? {
        return Some(BeingCleared);
      }
      if draft.custodyEpoch != epoch {
        return Some(ExpiredEpoch);
      }
      drafts := drafts[draft.id := draft];
      error := None;
    }

    method ClaimDraft(draft: Draft, now: int) returns (reply: Result<Draft, StoreError>)
      modifies this`drafts
      ensures reply.Ok? <==> Open(draft.custodyEpoch) && Claimable(old(View()), draft)
      ensures View() == if reply.Ok? then ClaimTxn(old(View()), draft, now) else old(View())
      ensures reply.Ok? ==> reply.value == Claimed(old(View()), draft, now) && reply.value == drafts[draft.id]
      ensures reply.Ok? <==>
              && fence.None? && draft.custodyEpoch == epoch && draft.id in old(drafts)
              && var current := old(drafts)[draft.id];
                 (current.generation, current.ownerId, current.custodyEpoch) == (draft.generation, draft.ownerId, draft.custodyEpoch)
      ensures reply == Err(BeingCleared) <==> fence.Some?
    {
      if fence.Some? {
        return Err(BeingCleared);
      }
      if draft.id !in drafts {
        return Err(Superseded);
      }
      var current := drafts[draft.id];
      if current.generation != draft.generation || current.ownerId != draft.ownerId ||
         current.custodyEpoch != draft.custodyEpoch || current.custodyEpoch != epoch {
        return Err(Superseded);
      }
      var claimed := current.(generation := current.generation + 1, updatedAt := now);
      drafts := drafts[draft.id := claimed];
      reply := Ok(claimed);
    }

    method AppendChunk(draft: Draft, audio: Audio, durationMs: int, now: int) returns (reply: Result<Draft, StoreError>)
      modifies this`drafts, this`chunks
      ensures reply.Ok? <==> Open(draft.custodyEpoch) && (audio == [] || Holds(old(View()), draft.id, draft.generation))
      ensures View() == if reply.Ok? && audio != [] then AppendTxn(old(View()), draft, audio, durationMs, now) else old(View())
      ensures reply.Ok? ==> reply.value == if audio == [] then draft else Appended(draft, durationMs, now)
      ensures reply == Err(Superseded) <==>
              && fence.None? && draft.custodyEpoch == epoch && audio != []
              && (draft.id in old(drafts) ==> old(drafts)[draft.id].generation != draft.generation)
      ensures reply == Err(BeingCleared) <==> fence.Some?
    {
      if fence.Some? {
        return Err(BeingCleared);
      }
      if draft.custodyEpoch != epoch {
        return Err(ExpiredEpoch);
      }
      if |audio| == 0 {
        return Ok(draft);
      }
      var next := draft.(durationMs := durationMs, nextChunkIndex := draft.nextChunkIndex + 1, updatedAt := now);
      if draft.id !in drafts || drafts[draft.id].generation != draft.generation {
        return Err(Superseded);
      }
      chunks := chunks[draft.id := Stored(View(), draft.id)[draft.nextChunkIndex := audio]];
      drafts := drafts[draft.id := next];
      reply := Ok(next);
    }

    method UpdatePhase(draft: Draft, phase: Phase, now: int) returns (reply: Result<Draft, StoreError>)
      modifies this`drafts
      ensures reply.Ok? <==> Open(draft.custodyEpoch) && Replaceable(old(View()), draft)
      ensures View() == if reply.Ok? then CompareAndPutTxn(old(View()), draft, draft.(phase := phase, updatedAt := now)) else old(View())
      ensures reply.Ok? ==> reply.value == draft.(phase := phase, updatedAt := now)
      ensures reply == Err(BeingCleared) <==> fence.Some?
    {
      reply := CompareAndPut(draft, draft.(phase := phase, updatedAt := now));
    }

    method Complete(draft: Draft, transcript: string, now: int) returns (reply: Result<Draft, StoreError>)
      modifies this`drafts
      ensures reply.Ok? <==> Open(draft.custodyEpoch) && Replaceable(old(View()), draft)
      ensures reply.Ok? ==> reply.value == Completed(draft, transcript, now)
      ensures View() == if reply.Ok? then CompareAndPutTxn(old(View()), draft, reply.value) else old(View())
      ensures reply == Err(BeingCleared) <==> fence.Some?
    {
      reply := CompareAndPut(draft, draft.(phase := Phase.Complete, transcript := Some(transcript), updatedAt := now));
    }

    method CompareAndPut(expected: Draft, next: Draft) returns (reply: Result<Draft, StoreError>)
      modifies this`drafts
      ensures reply.Ok? <==> Open(expected.custodyEpoch) && Replaceable(old(View()), expected)
      ensures View() == if reply.Ok? then CompareAndPutTxn(old(View()), expected, next) else old(View())
      ensures reply.Ok? ==> reply.value == next
      ensures reply.Ok? <==>
              && fence.None? && expected.custodyEpoch == epoch && expected.id in old(drafts)
              && var current := old(drafts)[expected.id];
                 (current.generation, current.custodyEpoch) == (expected.generation, expected.custodyEpoch)
      ensures reply == Err(BeingCleared) <==> fence.Some?
    {
      if fence.Some? {
        return Err(BeingCleared);
      }
      if expected.id !in drafts {
        return Err(Superseded);
      }
      var current := drafts[expected.id];
      if current.generation != expected.generation || current.custodyEpoch != expected.custodyEpoch ||
         current.custodyEpoch != epoch {
        return Err(Superseded);
      }
      drafts := drafts[expected.id := next];
      reply := Ok(next);
    }

    method Acknowledge(id: string, through: int)
      modifies this`chunks
      ensures View() == AcknowledgeTxn(old(View()), id, through)
    {
      var pending := Stored(View(), id);
      var acknowledged := set i: nat | i in pending && i <= through;
      if acknowledged == {} {
        assert forall i: nat :: i in pending && i <= through ==> i in acknowledged;
        AcknowledgeNothing(View(), id, through);
        return;
      }
      var kept := map i | i in pending && i !in acknowledged :: pending[i];
      assert kept == map i | i in pending && i > through :: pending[i];
      chunks := chunks[id := kept];
    }

    method DeleteDraft(id: string, generation: Option<int>) returns (reply: DeleteReply)
      modifies this`drafts, this`chunks
      ensures reply == DeleteReplyOf(old(View()), id, generation)
      ensures View() == DeleteTxn(old(View()), id, generation)
      ensures reply == Absent <==> id !in old(drafts)
      ensures reply == Deleted <==> id in old(drafts) && (generation.Some? ==> old(drafts)[id].generation == generation.value)
      ensures reply == Deleted ==> drafts == old(drafts) - {id} && chunks == old(chunks) - {id}
      ensures reply != Deleted ==> drafts == old(drafts) && chunks == old(chunks)
    {
      if id !in drafts {
        return Absent;
      }
      if generation.Some? && drafts[id].generation != generation.value {
        return DeleteSuperseded;
      }
      drafts := drafts - {id};
      chunks := chunks - {id};
      reply := Deleted;
    }

    method PurgeAll()
      modifies this`drafts, this`chunks
      ensures View() == EMPTY_DB
    {
      drafts, chunks := map[], map[];
    }

    /** Sign-out: a fresh epoch first, then the fence that stands until an authenticated recovery. */
    method BeginPurgeFence(newest: string)
      modifies this`epoch, this`fence
      ensures epoch == newest && fence == Some(newest)
    {
      epoch := newest;
      fence := Some(newest);
    }

    /** Remove the fence only if it is still the one the caller read. */
    method ClearPurgeFence(value: string)
      modifies this`fence
      ensures fence == if old(fence) == Some(value) then None else old(fence)
    {
      if fence != Some(value) {
        return;
      }
      fence := None;
    }
  }

  function Completed(draft: Draft, transcript: string, now: int): Draft {
    draft.(phase := Phase.Complete, transcript := Some(transcript), updatedAt := now)
  }

  lemma AcknowledgeNothing(db: Db, id: string, through: int)
    requires forall i :: i in Stored(db, id) ==> i > through
    ensures AcknowledgeTxn(db, id, through) == db
  {
    if id in db.chunks {
      var pending := Stored(db, id);
      assert forall i: nat :: i in db.chunks[id] <==> i in pending;
      assert db.chunks[id] == map i | i in db.chunks[id] && i > through :: db.chunks[id][i];
    }
  }

  /** A reply covering the lowest pending chunk strictly shrinks what is pending, and keeps the rest intact. */
  lemma AcknowledgeShrinksPending(db: Db, id: string, index: nat, through: int)
    requires index in Stored(db, id) && index <= through
    ensures Stored(AcknowledgeTxn(db, id, through), id).Keys < Stored(db, id).Keys
    ensures forall i :: i in Stored(db, id) && i > through ==>
              i in Stored(AcknowledgeTxn(db, id, through), id) && Stored(AcknowledgeTxn(db, id, through), id)[i] == Stored(db, id)[i]
    ensures AcknowledgeTxn(db, id, through).drafts == db.drafts
  {
    assert index !in Stored(AcknowledgeTxn(db, id, through), id);
  }
}
