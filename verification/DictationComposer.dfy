/**
 * Handing transcripts to a composer: the durable composer records of
 * apps/web/lib/dictation-storage.ts, keyed by account, custody epoch and view.
 */
module DictationComposer {
  import opened Prelude
  import JsText

  const DRAFT_TTL_MS := 6 * 60 * 60_000

  /** How many delivery ids survive into the next version of a record. */
  const KEPT := 31

  datatype Key = Key(ownerId: string, custodyEpoch: string, contextKey: string)

  datatype Record = Record(value: string, deliveryIds: seq<string>, updatedAt: int)

  function Tail(ids: seq<string>): seq<string> {
    if |ids| <= KEPT then ids else ids[|ids| - KEPT..]
  }

  function Ids(prior: Option<Record>): seq<string> {
    if prior.Some? then prior.value.deliveryIds else []
  }

  function Text(prior: Option<Record>): string {
    if prior.Some? then prior.value.value else ""
  }

  function Compose(current: string, transcript: string): string {
    var clean := JsText.Trim(transcript);
    if clean == [] then current
    else if JsText.IsBlank(current) then clean
    else current + (if JsText.IsSpace(current[|current| - 1]) then "" else " ") + clean
  }

  predicate AlreadyDelivered(prior: Option<Record>, deliveryId: string) {
    deliveryId in Ids(prior)
  }

  function Delivered(prior: Option<Record>, deliveryId: string, transcript: string, now: int): Record {
    if prior.Some? && AlreadyDelivered(prior, deliveryId) then prior.value
    else Record(Compose(Text(prior), transcript), Tail(Ids(prior)) + [deliveryId], now)
  }

  function Edited(prior: Option<Record>, value: string, now: int): Record {
    Record(value, Tail(Ids(prior)), now)
  }

  // ---------------------------------------------------------------------------
  // The store
  // ---------------------------------------------------------------------------

  class ComposerStore {
    var records: map<Key, Record>
    var fence: Option<string>
    var epoch: string

    constructor (epoch: string)
      ensures records == map[] && fence == None && this.epoch == epoch
    {
      records, fence, this.epoch := map[], None, epoch;
    }

    function Prior(key: Key): Option<Record>
      reads this`records
    {
      if key in records then Some(records[key]) else None
    }

    /** Append a transcript once; a replay answers with the value already composed. */
    method CommitTranscript(ownerId: string, contextKey: string, deliveryId: string, transcript: string, now: int)
      returns (value: Option<string>)
      modifies this`records
      ensures var key := Key(ownerId, epoch, contextKey);
              if fence.Some? then value == None && records == old(records)
              else
                && records == old(records)[key := Delivered(old(Prior(key)), deliveryId, transcript, now)]
                && value == Some(records[key].value)
    {
      if fence.Some? {
        return None;
      }
      var key := Key(ownerId, epoch, contextKey);
      if key in records && deliveryId in records[key].deliveryIds {
        assert records == records[key := records[key]];
        return Some(records[key].value);
      }
      var prior := Prior(key);
      var composed := Compose(Text(prior), transcript);
      records := records[key := Record(composed, Tail(Ids(prior)) + [deliveryId], now)];
      value := Some(composed);
    }

    method PersistDraft(ownerId: string, contextKey: string, value: string, now: int) returns (stored: bool)
      modifies this`records
      ensures var key := Key(ownerId, epoch, contextKey);
              && stored == fence.None?
              && records == if stored then old(records)[key := Edited(old(Prior(key)), value, now)] else old(records)
    {
      if fence.Some? {
        return false;
      }
      var key := Key(ownerId, epoch, contextKey);
      records := records[key := Record(value, Tail(Ids(Prior(key))), now)];
      stored := true;
    }

    /** Restore one composer, dropping every record of another account or epoch, or past its time. */
    method LoadDraft(ownerId: string, contextKey: string, now: int) returns (value: Option<string>)
      modifies this`records
      ensures fence.Some? ==> value == None && records == old(records)
      ensures fence.None? ==>
                && (forall key :: key in records <==>
                      && key in old(records) && key.ownerId == ownerId && key.custodyEpoch == epoch
                      && now - old(records)[key].updatedAt <= 21_600_000)
                && (forall key :: key in records ==> records[key] == old(records)[key])
                && value == var prior := Prior(Key(ownerId, epoch, contextKey));
                            if prior.Some? then Some(prior.value.value) else None
    {
      if fence.Some? {
        return None;
      }
      records := map key | key in records && key.ownerId == ownerId && key.custodyEpoch == epoch &&
                           now - records[key].updatedAt <= DRAFT_TTL_MS :: records[key];
      var key := Key(ownerId, epoch, contextKey);
      value := if key in records then Some(records[key].value) else None;
    }

    method ClearDraft(ownerId: string, contextKey: string, expectedEpoch: Option<string>)
      modifies this`records
      ensures var cleared := if expectedEpoch.Some? then expectedEpoch.value else epoch;
              records == if fence.Some? || cleared != epoch then old(records)
                         else old(records) - {Key(ownerId, cleared, contextKey)}
    {
      var cleared := if expectedEpoch.Some? then expectedEpoch.value else epoch;
      if epoch != cleared || fence.Some? {
        return;
      }
      records := records - {Key(ownerId, cleared, contextKey)};
    }
  }

  // ---------------------------------------------------------------------------
  // Appended once
  // ---------------------------------------------------------------------------

  /** What happens to one record that is not cleared, from any tab in any order. */
  datatype Event = Deliver(id: string, transcript: string, at: int) | Edit(text: string, at: int)

  function After(prior: Option<Record>, e: Event): Option<Record> {
    match e
    case Deliver(id, transcript, at) => Some(Delivered(prior, id, transcript, at))
    case Edit(text, at) => Some(Edited(prior, text, at))
  }

  /** A delivery that is not recognised as a replay. */
  predicate Appends(prior: Option<Record>, e: Event) {
    e.Deliver? && !AlreadyDelivered(prior, e.id)
  }

  function AppendsOf(prior: Option<Record>, events: seq<Event>, id: string): nat
    decreases |events|
  {
    if events == [] then 0
    else
      (if Appends(prior, events[0]) && events[0].id == id then 1 else 0) + AppendsOf(After(prior, events[0]), events[1..], id)
  }

  function AppendsOfOthers(prior: Option<Record>, events: seq<Event>, id: string): nat
    decreases |events|
  {
    if events == [] then 0
    else
      (if Appends(prior, events[0]) && events[0].id != id then 1 else 0) +
      AppendsOfOthers(After(prior, events[0]), events[1..], id)
  }

  /** The id is among the last `depth + 1` remembered. */
  predicate Remembered(ids: seq<string>, id: string, depth: nat) {
    exists i :: 0 <= i < |ids| && i >= |ids| - 1 - depth && ids[i] == id
  }

  lemma TailKeepsRemembered(ids: seq<string>, id: string, depth: nat)
    requires Remembered(ids, id, depth) && depth < KEPT
    ensures Remembered(Tail(ids), id, depth)
  {
    var i :| 0 <= i < |ids| && i >= |ids| - 1 - depth && ids[i] == id;
    var j := i - (|ids| - |Tail(ids)|);
    assert Tail(ids)[j] == id;
  }

  lemma AppendDeepens(ids: seq<string>, other: string, id: string, depth: nat)
    requires Remembered(ids, id, depth)
    ensures Remembered(ids + [other], id, depth + 1)
  {
    var i :| 0 <= i < |ids| && i >= |ids| - 1 - depth && ids[i] == id;
    assert (ids + [other])[i] == id;
  }

  /** While at most `30 - depth` other deliveries are appended, a remembered delivery is never appended again. */
  lemma {:induction false} RememberedNotAppended(prior: Option<Record>, events: seq<Event>, id: string, depth: nat)
    requires Remembered(Ids(prior), id, depth)
    requires depth + AppendsOfOthers(prior, events, id) < KEPT
    ensures AppendsOf(prior, events, id) == 0
    decreases |events|
  {
    if events != [] {
      var e := events[0];
      assert AlreadyDelivered(prior, id);
      TailKeepsRemembered(Ids(prior), id, depth);
      if Appends(prior, e) {
        AppendDeepens(Tail(Ids(prior)), e.id, id, depth);
        RememberedNotAppended(After(prior, e), events[1..], id, depth + 1);
      } else {
        RememberedNotAppended(After(prior, e), events[1..], id, depth);
      }
    }
  }

  /**
   * Through any deliveries and edits of one composer, in any order and from any tabs, a transcript
   * is appended at most once as long as at most thirty other deliveries are appended after it.
   */
  lemma {:induction false} DeliveredOnce(prior: Option<Record>, events: seq<Event>, id: string)
    requires AppendsOfOthers(prior, events, id) < KEPT
    ensures AppendsOf(prior, events, id) <= 1
    decreases |events|
  {
    if events != [] {
      var e := events[0];
      if Appends(prior, e) && e.id == id {
        var ids := Ids(After(prior, e));
        assert ids[|ids| - 1] == id;
        assert Remembered(ids, id, 0);
        RememberedNotAppended(After(prior, e), events[1..], id, 0);
      } else {
        DeliveredOnce(After(prior, e), events[1..], id);
      }
    }
  }

  /** Thirty is the limit: an id with thirty-one later ones behind it is forgotten by the next edit, and would be appended again. */
  lemma ThirtyOneOthersAndAnEditForget(prior: Option<Record>, text: string, transcript: string, at: int)
    requires |Ids(prior)| == KEPT + 1
    requires forall i :: 1 <= i < |Ids(prior)| ==> Ids(prior)[i] != Ids(prior)[0]
    ensures AlreadyDelivered(prior, Ids(prior)[0])
    ensures Appends(After(prior, Edit(text, at)), Deliver(Ids(prior)[0], transcript, at))
  {
  }

  /** A delivery never disturbs text that is already there, and ends in the transcript it was given. */
  lemma ComposeExtends(current: string, transcript: string)
    ensures !JsText.IsBlank(current) ==> current <= Compose(current, transcript)
    ensures !JsText.IsBlank(transcript) ==>
              var clean := JsText.Trim(transcript);
              |clean| <= |Compose(current, transcript)| &&
              Compose(current, transcript)[|Compose(current, transcript)| - |clean|..] == clean
    ensures JsText.IsBlank(transcript) ==> Compose(current, transcript) == current
  {
  }
}
