/** The retrying upload loop of apps/web/lib/dictation-session.ts. */
module DictationSession {
  import opened Prelude
  import opened DictationStore

  const MAX_RETRY_DELAY_MS := 5_000

  /** One answer to an uploaded chunk; an acknowledgement always reaches the chunk's own index. */
  datatype Answer = Acknowledged(beyond: nat) | Retryable | Refused

  datatype Outcome = Drained | GaveUp | OutOfAnswers

  ghost predicate IsLowest(pending: map<nat, Audio>, index: nat) {
    index in pending && forall i :: i in pending ==> index <= i
  }

  method Lowest(pending: map<nat, Audio>) returns (index: nat)
    requires pending != map[]
    ensures IsLowest(pending, index)
  {
    var rest := pending.Keys;
    index :| index in rest;
    rest := rest - {index};
    while rest != {}
      invariant rest <= pending.Keys && index in pending
      invariant forall i :: i in pending && i !in rest ==> index <= i
      decreases rest
    {
      var i :| i in rest;
      rest := rest - {i};
      if i < index {
        index := i;
      }
    }
  }

  function CountAcknowledged(answers: seq<Answer>): nat {
    if answers == [] then 0 else CountAcknowledged(answers[..|answers| - 1]) + if answers[|answers| - 1].Acknowledged? then 1 else 0
  }

  /** How many retryable failures in a row end the answers, counted up to five. */
  function Retries(answers: seq<Answer>): nat {
    if answers == [] then 0
    else match answers[|answers| - 1]
      case Acknowledged(_) => 0
      case Retryable => Min(Retries(answers[..|answers| - 1]) + 1, 5)
      case Refused => Retries(answers[..|answers| - 1])
  }

  function Pow2(n: nat): nat {
    if n == 0 then 1 else 2 * Pow2(n - 1)
  }

  /** The pauses made: one behind every retryable failure, doubling up to the limit. */
  function Delays(answers: seq<Answer>): seq<int> {
    if answers == [] then []
    else
      var front := answers[..|answers| - 1];
      Delays(front) + if answers[|answers| - 1].Retryable? then [Min(MAX_RETRY_DELAY_MS, 250 * Pow2(Retries(front)))] else []
  }

  lemma {:induction false} LowestExists(pending: map<nat, Audio>, bound: nat)
    requires exists i :: i in pending && i < bound
    ensures exists i :: IsLowest(pending, i)
  {
    var i :| i in pending && i < bound;
    if exists j :: j in pending && j < i {
      LowestExists(pending, i);
    } else {
      assert IsLowest(pending, i);
    }
  }

  ghost function LowestIndex(pending: map<nat, Audio>): (index: nat)
    requires pending != map[]
    ensures IsLowest(pending, index)
  {
    assert pending.Keys != {};
    var some :| some in pending.Keys;
    LowestExists(pending, some + 1);
    var index :| IsLowest(pending, index);
    index
  }

  /** The chunks above every acknowledged index. */
  function Remaining(pending: map<nat, Audio>, acked: seq<nat>): map<nat, Audio> {
    map i | i in pending && (forall k :: 0 <= k < |acked| ==> acked[k] < i) :: pending[i]
  }

  function Above(pending: map<nat, Audio>, through: nat): map<nat, Audio> {
    map i | i in pending && i > through :: pending[i]
  }

  /** The indices the answers acknowledge when always the lowest remaining chunk is uploaded. */
  ghost function Acked(pending: map<nat, Audio>, answers: seq<Answer>): seq<nat> {
    if answers == [] then []
    else
      var before := Acked(pending, answers[..|answers| - 1]);
      var rest := Remaining(pending, before);
      match answers[|answers| - 1]
      case Acknowledged(beyond) => if rest == map[] then before else before + [LowestIndex(rest) + beyond]
      case _ => before
  }

  lemma AcknowledgedRemain(pending: map<nat, Audio>, acked: seq<nat>, through: nat)
    ensures Remaining(pending, acked + [through]) == Above(Remaining(pending, acked), through)
  {
    var more := acked + [through];
    assert more[|acked|] == through;
    assert forall k :: 0 <= k < |acked| ==> more[k] == acked[k];
  }

  /** One more acknowledgement takes at least the lowest remaining chunk with it. */
  lemma AcknowledgementShrinks(pending: map<nat, Audio>, acked: seq<nat>, through: nat, index: nat)
    requires index in Remaining(pending, acked) && index <= through
    ensures |Remaining(pending, acked + [through])| < |Remaining(pending, acked)|
  {
    AcknowledgedRemain(pending, acked, through);
    var after, before := Remaining(pending, acked + [through]), Remaining(pending, acked);
    assert index !in after;
    SmallerSet(after.Keys, before.Keys);
  }

  lemma {:induction false} CountGrows(answers: seq<Answer>, k: nat)
    requires k <= |answers|
    ensures CountAcknowledged(answers[..k]) <= CountAcknowledged(answers)
  {
    if k < |answers| {
      CountGrows(answers[..|answers| - 1], k);
      assert answers[..|answers| - 1][..k] == answers[..k];
    } else {
      assert answers[..k] == answers;
    }
  }

  /** Where the loop stands after `k` answers: what they acknowledged, what is left, and what it has waited. */
  ghost predicate AfterAnswers(before: map<nat, Audio>, answers: seq<Answer>, k: nat, pending: map<nat, Audio>, acked: seq<nat>,
                               retry: nat, power: nat, delays: seq<int>)
  {
    && k <= |answers|
    && acked == Acked(before, answers[..k])
    && pending == Remaining(before, acked)
    && |acked| <= CountAcknowledged(answers[..k])
    && |pending| + CountAcknowledged(answers[..k]) <= |before|
    && retry == Retries(answers[..k]) && power == Pow2(retry)
    && delays == Delays(answers[..k])
  }

  /** Each of the first `used` answers was asked for because something was left, and none ended the loop. */
  ghost predicate Taken(before: map<nat, Audio>, answers: seq<Answer>, used: nat)
    requires used <= |answers|
  {
    forall k :: 0 <= k < used ==> answers[k] != Refused && Remaining(before, Acked(before, answers[..k])) != map[]
  }

  lemma TakenOneMore(before: map<nat, Audio>, answers: seq<Answer>, k: nat, pending: map<nat, Audio>, acked: seq<nat>,
                     retry: nat, power: nat, delays: seq<int>)
    requires AfterAnswers(before, answers, k, pending, acked, retry, power, delays) && Taken(before, answers, k)
    requires k < |answers| && answers[k] != Refused && pending != map[]
    ensures Taken(before, answers, k + 1)
  {
  }

  lemma BeforeAnswers(before: map<nat, Audio>, answers: seq<Answer>)
    ensures AfterAnswers(before, answers, 0, before, [], 0, 1, [])
  {
    assert answers[..0] == [];
    assert before == Remaining(before, []);
  }

  lemma AfterAcknowledgement(before: map<nat, Audio>, answers: seq<Answer>, k: nat, pending: map<nat, Audio>, acked: seq<nat>,
                             retry: nat, power: nat, delays: seq<int>, index: nat, through: nat)
    requires AfterAnswers(before, answers, k, pending, acked, retry, power, delays) && IsLowest(pending, index)
    requires k < |answers| && answers[k].Acknowledged? && through == index + answers[k].beyond
    ensures AfterAnswers(before, answers, k + 1, Above(pending, through), acked + [through], 0, 1, delays)
  {
    assert answers[..k + 1][..k] == answers[..k];
    assert index == LowestIndex(pending);
    AcknowledgedRemain(before, acked, through);
    AcknowledgementShrinks(before, acked, through, index);
    assert Above(pending, through) == Remaining(before, acked + [through]);
  }

  lemma AfterRetry(before: map<nat, Audio>, answers: seq<Answer>, k: nat, pending: map<nat, Audio>, acked: seq<nat>,
                   retry: nat, power: nat, delays: seq<int>)
    requires AfterAnswers(before, answers, k, pending, acked, retry, power, delays)
    requires k < |answers| && answers[k].Retryable?
    ensures var next := Min(retry + 1, 5);
            AfterAnswers(before, answers, k + 1, pending, acked, next, Pow2(next), delays + [Min(MAX_RETRY_DELAY_MS, 250 * power)])
  {
    assert answers[..k + 1][..k] == answers[..k];
  }

  lemma {:induction false} RetriesAtMostFive(answers: seq<Answer>)
    ensures Retries(answers) <= 5
  {
    if answers != [] {
      RetriesAtMostFive(answers[..|answers| - 1]);
    }
  }

  lemma StoppedAfter(before: map<nat, Audio>, answers: seq<Answer>, k: nat, pending: map<nat, Audio>, acked: seq<nat>,
                     retry: nat, power: nat, delays: seq<int>)
    requires AfterAnswers(before, answers, k, pending, acked, retry, power, delays)
    ensures |acked| <= CountAcknowledged(answers)
    ensures k == |answers| && CountAcknowledged(answers) >= |before| ==> pending == map[]
  {
    CountGrows(answers, k);
    assert answers[..|answers|] == answers;
  }

  /** No other draft's chunks differ. */
  ghost predicate OthersKept(before: Db, after: Db, id: string) {
    forall x :: x != id ==> Stored(after, x) == Stored(before, x)
  }

  lemma StoredAfterAcknowledge(db: Db, id: string, through: nat)
    ensures Stored(AcknowledgeTxn(db, id, through), id) == Above(Stored(db, id), through)
    ensures OthersKept(db, AcknowledgeTxn(db, id, through), id)
  {
  }

  /** The reply to an uploaded chunk, applied to the store. */
  method ApplyReply(store: DictationDraftStore, id: string, through: nat)
    modifies store`chunks
    ensures Stored(store.View(), id) == Above(old(Stored(store.View(), id)), through)
    ensures OthersKept(old(store.View()), store.View(), id)
  {
    StoredAfterAcknowledge(store.View(), id, through);
    store.Acknowledge(id, through);
  }

  /** The pause before the next attempt, and the counter behind it; `power` is two to the `retry`. */
  method BackOff(retry: nat, power: nat) returns (delay: int, retry': nat, power': nat)
    requires retry <= 5 && power == Pow2(retry)
    ensures delay == Min(MAX_RETRY_DELAY_MS, 250 * power) && retry' == Min(retry + 1, 5) && power' == Pow2(retry')
  {
    delay := Min(MAX_RETRY_DELAY_MS, 250 * power);
    retry', power' := retry, power;
    if retry < 5 {
      retry', power' := retry + 1, power * 2;
    }
  }

  /**
   * Upload the lowest pending chunk until none is left.  `used` answers were taken and `acked` are
   * the indices they acknowledged: exactly the chunks above all of them are still stored.  Each
   * acknowledgement strictly shrinks what is pending, so as many as there are pending chunks
   * always suffice.
   */
  method UploadPending(store: DictationDraftStore, id: string, answers: seq<Answer>)
    returns (outcome: Outcome, delays: seq<int>, ghost used: nat, ghost acked: seq<nat>)
    modifies store`chunks
    ensures used <= |answers| && acked == Acked(old(Stored(store.View(), id)), answers[..used])
    ensures Stored(store.View(), id) == Remaining(old(Stored(store.View(), id)), acked)
    ensures OthersKept(old(store.View()), store.View(), id)
    ensures |acked| <= CountAcknowledged(answers)
    ensures Taken(old(Stored(store.View(), id)), answers, used)
    ensures delays == Delays(answers[..used])
    ensures outcome.Drained? <==> Stored(store.View(), id) == map[]
    ensures outcome.GaveUp? <==> Stored(store.View(), id) != map[] && used < |answers|
    ensures outcome.GaveUp? ==> answers[used] == Refused
    ensures Refused !in answers && CountAcknowledged(answers) >= old(|Stored(store.View(), id)|) ==> outcome.Drained?
  {
    ghost var before, left := Stored(store.View(), id), Stored(store.View(), id);
    var retry: nat, power: nat := 0, 1;
    delays, acked, used := [], [], 0;
    BeforeAnswers(before, answers);
    for k := 0 to |answers|
      invariant used == k && left == Stored(store.View(), id)
      invariant AfterAnswers(before, answers, k, left, acked, retry, power, delays)
      invariant OthersKept(old(store.View()), store.View(), id)
      invariant Taken(before, answers, k)
    {
      StoppedAfter(before, answers, k, left, acked, retry, power, delays);
      var pending := Stored(store.View(), id);
      if pending == map[] {
        return Drained, delays, used, acked;
      }
      if answers[k] == Refused {
        return GaveUp, delays, used, acked;
      }
      TakenOneMore(before, answers, k, left, acked, retry, power, delays);
      var index := Lowest(pending);
      match answers[k] {
        case Acknowledged(beyond) =>
          var through: nat := index + beyond;
          AfterAcknowledgement(before, answers, k, left, acked, retry, power, delays, index, through);
          ApplyReply(store, id, through);
          left, acked := Above(left, through), acked + [through];
          retry, power := 0, 1;
        case Retryable =>
          AfterRetry(before, answers, k, left, acked, retry, power, delays);
          RetriesAtMostFive(answers[..k]);
          var delay;
          delay, retry, power := BackOff(retry, power);
          delays := delays + [delay];
      }
      used := k + 1;
    }
    StoppedAfter(before, answers, |answers|, left, acked, retry, power, delays);
    outcome := if Stored(store.View(), id) == map[] then Drained else OutOfAnswers;
  }

  // ---------------------------------------------------------------------------
  // Laws of the loop
  // ---------------------------------------------------------------------------

  /** The pause behind the failure that `failures` others have come before in a row. */
  function PauseAfter(failures: nat): int {
    if failures == 0 then 250
    else if failures == 1 then 500
    else if failures == 2 then 1_000
    else if failures == 3 then 2_000
    else if failures == 4 then 4_000
    else 5_000
  }

  /** Answer `k` comes behind exactly `n` retryable failures in a row. */
  ghost predicate FailuresBefore(answers: seq<Answer>, k: nat, n: nat) {
    && n <= k <= |answers|
    && (forall j :: k - n <= j < k ==> answers[j] == Retryable)
    && (n < k ==> answers[k - n - 1].Acknowledged?)
  }

  lemma {:induction false} RetriesCountFailures(answers: seq<Answer>, k: nat, n: nat)
    requires FailuresBefore(answers, k, n)
    ensures Retries(answers[..k]) == if n < 5 then n else 5
  {
    if k > 0 {
      assert answers[..k][..k - 1] == answers[..k - 1];
      if n > 0 {
        RetriesCountFailures(answers, k - 1, n - 1);
      }
    }
  }

  /**
   * The pauses are 250, 500, 1000, 2000 and 4000 milliseconds behind the first five failures in a
   * row and 5000 behind every further one; an acknowledgement makes none and starts over.
   */
  lemma PausesFollowFailures(answers: seq<Answer>, k: nat, n: nat)
    requires k < |answers| && FailuresBefore(answers, k, n)
    ensures answers[k] == Retryable ==> Delays(answers[..k + 1]) == Delays(answers[..k]) + [PauseAfter(n)]
    ensures answers[k].Acknowledged? ==> Delays(answers[..k + 1]) == Delays(answers[..k]) && FailuresBefore(answers, k + 1, 0)
  {
    assert answers[..k + 1][..k] == answers[..k];
    RetriesCountFailures(answers, k, n);
    assert Pow2(5) == 32 && Pow2(4) == 16 && Pow2(3) == 8 && Pow2(2) == 4 && Pow2(1) == 2 by {
      assert Pow2(2) == 2 * Pow2(1) && Pow2(3) == 2 * Pow2(2) && Pow2(4) == 2 * Pow2(3) && Pow2(5) == 2 * Pow2(4);
    }
  }

  /** These are indices of stored chunks, in ascending order, and no stored chunk below the last is left out. */
  ghost predicate TakenInOrder(pending: map<nat, Audio>, indices: seq<nat>) {
    && (forall j :: 0 <= j < |indices| ==> indices[j] in pending)
    && (forall i, j :: 0 <= i < j < |indices| ==> indices[i] < indices[j])
    && (forall i, j :: i in pending && 0 <= j < |indices| && i <= indices[j] ==> i in indices)
  }

  lemma OneMoreInOrder(pending: map<nat, Audio>, indices: seq<nat>, index: nat)
    requires TakenInOrder(pending, indices) && IsLowest(Remaining(pending, indices), index)
    ensures TakenInOrder(pending, indices + [index])
  {
    forall i | i in pending && i <= index
      ensures i in indices + [index]
    {
      if i != index {
        assert i !in Remaining(pending, indices);
        var k :| 0 <= k < |indices| && indices[k] >= i;
        assert i in indices;
        var j :| 0 <= j < |indices| && indices[j] == i;
        assert (indices + [index])[j] == i;
      } else {
        assert (indices + [index])[|indices|] == i;
      }
    }
  }

  /**
   * A server that acknowledges just what it was sent gets the stored chunks one by one from the
   * lowest up, none twice and none passed over; failures in between change nothing of that.
   */
  lemma {:induction false} ChunksGoInOrder(pending: map<nat, Audio>, answers: seq<Answer>)
    requires forall k :: 0 <= k < |answers| ==> answers[k] == Acknowledged(0) || answers[k] == Retryable
    ensures TakenInOrder(pending, Acked(pending, answers))
  {
    if answers != [] {
      var front := answers[..|answers| - 1];
      ChunksGoInOrder(pending, front);
      var rest := Remaining(pending, Acked(pending, front));
      if answers[|answers| - 1] == Acknowledged(0) && rest != map[] {
        OneMoreInOrder(pending, Acked(pending, front), LowestIndex(rest));
      }
    }
  }

  lemma SmallerSet(small: set<nat>, large: set<nat>)
    requires small < large
    ensures |small| < |large|
  {
    var x :| x in large && x !in small;
    assert small <= large - {x};
    SubsetCard(small, large - {x});
  }

  lemma {:induction false} SubsetCard(small: set<nat>, large: set<nat>)
    requires small <= large
    ensures |small| <= |large|
  {
    if small != {} {
      var x :| x in small;
      SubsetCard(small - {x}, large - {x});
    }
  }
}
