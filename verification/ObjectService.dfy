/**
 * Checksum-checked hydration over the staging cache (packages/core/src/media-store.ts).  A
 * hydrated object is a handle that owns one pin until it is released; an object's checksum and
 * size are fixed for its id.
 */
module ObjectService {
  import opened Prelude
  import opened StagingCache

  datatype StoredObject = StoredObject(objectId: Id, sha256: string, sizeBytes: nat, available: bool)

  datatype Handle = Handle(objectId: Id, sha256: string, sizeBytes: nat, released: bool)

  datatype HydrateError = NotAvailable | HydrationFailed | MaterializeFailed

  /** How many unreleased handles there are for an object. */
  function Held(handles: seq<Handle>, id: Id): nat {
    if handles == [] then 0
    else
      var last := handles[|handles| - 1];
      Held(handles[..|handles| - 1], id) + if last.objectId == id && !last.released then 1 else 0
  }

  lemma HeldAppend(handles: seq<Handle>, h: Handle, id: Id)
    ensures Held(handles + [h], id) == Held(handles, id) + if h.objectId == id && !h.released then 1 else 0
  {
    assert (handles + [h])[..|handles|] == handles;
  }

  lemma {:induction false} HeldRelease(handles: seq<Handle>, k: nat, id: Id)
    requires k < |handles| && !handles[k].released
    ensures Held(handles, id) == Held(handles[k := handles[k].(released := true)], id) + if handles[k].objectId == id then 1 else 0
  {
    var n := |handles| - 1;
    var after := handles[k := handles[k].(released := true)];
    if k < n {
      HeldRelease(handles[..n], k, id);
      assert after[..n] == handles[..n][k := handles[k].(released := true)];
    } else {
      assert after[..n] == handles[..n];
    }
  }

  lemma {:induction false} HeldIfUnreleased(handles: seq<Handle>, k: nat)
    requires k < |handles| && !handles[k].released
    ensures Held(handles, handles[k].objectId) > 0
  {
    if k < |handles| - 1 {
      HeldIfUnreleased(handles[..|handles| - 1], k);
    }
  }

  /** No other file differs. */
  ghost predicate OthersLie(before: map<Id, Bytes>, after: map<Id, Bytes>, id: Id) {
    after - {id} == before - {id}
  }

  /** The table with the object pinned once more, under its own description. */
  function PinnedIn(entries: map<Id, Entry>, stored: StoredObject, now: int): map<Id, Entry> {
    var pins := if stored.objectId in entries then entries[stored.objectId].pins else 0;
    entries[stored.objectId := Entry(stored.sha256, stored.sizeBytes, pins + 1, now)]
  }

  class ObjectService {
    const cache: StagingCache
    const identity: Id -> (string, nat)
    const hydrationAttempts: nat
    var handles: seq<Handle>

    constructor (cache: StagingCache, identity: Id -> (string, nat), attempts: nat)
      requires cache.Valid() && forall x :: cache.Pins(x) == 0
      ensures Valid() && this.cache == cache && this.identity == identity && hydrationAttempts == attempts && handles == []
    {
      this.cache, this.identity, hydrationAttempts, handles := cache, identity, attempts, [];
      assert forall x :: x in cache.entries ==> cache.entries[x].pins == cache.Pins(x);
    }

    ghost predicate PinnedMatch()
      reads this, cache
    {
      MatchIn(cache.entries)
    }

    ghost predicate MatchIn(entries: map<Id, Entry>) {
      forall x :: x in entries && entries[x].pins > 0 ==> (entries[x].sha256, entries[x].sizeBytes) == identity(x)
    }

    lemma PinningKeepsMatch(entries: map<Id, Entry>, stored: StoredObject, now: int)
      requires MatchIn(entries) && (stored.sha256, stored.sizeBytes) == identity(stored.objectId)
      ensures MatchIn(PinnedIn(entries, stored, now))
    {
    }

    /** Pins are exactly the unreleased handles, and what is pinned is the object it stands for. */
    ghost predicate Valid()
      reads this, cache
    {
      && cache.Valid()
      && (forall x :: cache.Pins(x) == Held(handles, x))
      && PinnedMatch()
      && (forall k :: 0 <= k < |handles| ==> (handles[k].sha256, handles[k].sizeBytes) == identity(handles[k].objectId))
    }

    /** While a handle is unreleased, the staged file has the checksum and size of its descriptor. */
    lemma UnreleasedHandlesMatch(k: nat)
      requires Valid() && k < |handles| && !handles[k].released
      ensures handles[k].objectId in cache.disk
      ensures cache.digest(cache.disk[handles[k].objectId]) == handles[k].sha256
      ensures |cache.disk[handles[k].objectId]| == handles[k].sizeBytes
    {
      HeldIfUnreleased(handles, k);
    }

    /**
     * Pin the staged object or fetch it, at most `hydrationAttempts` times; `fetched` are the
     * backing store's answers, `materializes` whether the projection into the sandbox succeeds.
     */
    method Hydrate(stored: StoredObject, fetched: seq<Option<Bytes>>, materializes: bool, now: int)
      returns (handle: Result<nat, HydrateError>)
      requires Valid() && (stored.sha256, stored.sizeBytes) == identity(stored.objectId)
      requires |fetched| == hydrationAttempts
      modifies this`handles, cache
      ensures Valid()
      ensures handle.Ok? ==>
                && handle.value == |old(handles)|
                && handles == old(handles) + [Handle(stored.objectId, stored.sha256, stored.sizeBytes, false)]
      ensures handle.Err? ==> handles == old(handles)
      ensures handle.Err? ==> forall x :: cache.Pins(x) == old(cache.Pins(x))
      ensures handle == Err(NotAvailable) <==> !stored.available
      ensures handle.Ok? <==> stored.available && materializes && (old(Staged(stored)) || SomeGenuine(stored, fetched))
      ensures handle.Ok? ==> Staged(stored) && OthersLie(old(cache.disk), cache.disk, stored.objectId)
      ensures handle.Ok? && old(Staged(stored)) ==> cache.disk == old(cache.disk)
      ensures CacheAfter(old(cache.entries), old(cache.disk), cache.entries, cache.disk, stored, handle, now)
    {
      if !stored.available {
        return Err(NotAvailable);
      }
      var id := stored.objectId;
      var obtained := Obtain(stored, fetched, now);
      if !obtained {
        return Err(HydrationFailed);
      }
      if !materializes {
        ghost var disk := cache.disk;
        cache.Release(id, now);
        assert GaveBack(PinnedIn(old(cache.entries), stored, now), disk, cache.entries, cache.disk, id, now, cache.maxUnpinnedBytes);
        return Err(MaterializeFailed);
      }
      ghost var before := handles;
      handle := Ok(|handles|);
      handles := handles + [Handle(id, stored.sha256, stored.sizeBytes, false)];
      forall x
        ensures cache.Pins(x) == Held(handles, x)
      {
        HeldAppend(before, handles[|before|], x);
      }
    }

    /** What a hydration leaves of the cache: a failed projection gives the pin back, a failed fetch drops the stale file. */
    ghost predicate CacheAfter(former: map<Id, Entry>, formerDisk: map<Id, Bytes>, entries: map<Id, Entry>, disk: map<Id, Bytes>,
                               stored: StoredObject, reply: Result<nat, HydrateError>, now: int)
    {
      match reply
      case Ok(_) => entries == PinnedIn(former, stored, now)
      case Err(NotAvailable) => entries == former && disk == formerDisk
      case Err(HydrationFailed) => entries == former - {stored.objectId} && disk == formerDisk - {stored.objectId}
      case Err(MaterializeFailed) =>
        exists staged :: OthersLie(formerDisk, staged, stored.objectId) && LiesOn(staged, stored) &&
          GaveBack(PinnedIn(former, stored, now), staged, entries, disk, stored.objectId, now, cache.maxUnpinnedBytes)
    }

    /** The object is staged and pinned once more, or no pin has changed. */
    method Obtain(stored: StoredObject, fetched: seq<Option<Bytes>>, now: int) returns (ok: bool)
      requires cache.Valid() && PinnedMatch() && (stored.sha256, stored.sizeBytes) == identity(stored.objectId)
      modifies cache
      ensures cache.Valid() && PinnedMatch()
      ensures forall x :: cache.Pins(x) == old(cache.Pins(x)) + if ok && x == stored.objectId then 1 else 0
      ensures ok <==> old(Staged(stored)) || SomeGenuine(stored, fetched)
      ensures ok <==> Staged(stored)
      ensures OthersLie(old(cache.disk), cache.disk, stored.objectId)
      ensures cache.entries == if ok then PinnedIn(old(cache.entries), stored, now) else old(cache.entries) - {stored.objectId}
      ensures old(Staged(stored)) ==> cache.disk == old(cache.disk)
      ensures !ok ==> cache.disk == old(cache.disk) - {stored.objectId}
    {
      var id := stored.objectId;
      ghost var former, disk := cache.entries, cache.disk;
      var entry := cache.Acquire(id, stored.sha256, stored.sizeBytes, now);
      ok := true;
      PinningKeepsMatch(former, stored, now);
      if entry.Some? {
        assert cache.entries == PinnedIn(former, stored, now);
      } else {
        assert former[id := Entry(stored.sha256, stored.sizeBytes, 1, now)] == cache.entries[id := Entry(stored.sha256, stored.sizeBytes, 1, now)];
        entry := Fetch(stored, fetched, now);
        ok := entry.Some?;
        assert ok ==> cache.entries == PinnedIn(former, stored, now);
      }
      assert OthersLie(disk, cache.disk, id);
    }

    /** Fetch until some answer has the right size and checksum, and stage that one pinned. */
    method Fetch(stored: StoredObject, fetched: seq<Option<Bytes>>, now: int) returns (entry: Option<Entry>)
      requires cache.Valid() && stored.objectId !in cache.entries
      modifies cache
      ensures cache.Valid()
      ensures entry.Some? <==> SomeGenuine(stored, fetched)
      ensures entry.None? ==> cache.entries == old(cache.entries) && cache.disk == old(cache.disk)
      ensures entry.Some? ==>
                && cache.entries == old(cache.entries)[stored.objectId := Entry(stored.sha256, stored.sizeBytes, 1, now)]
                && Staged(stored) && OthersLie(old(cache.disk), cache.disk, stored.objectId)
    {
      entry := None;
      for attempt := 0 to |fetched|
        invariant cache.Valid() && cache.entries == old(cache.entries) && cache.disk == old(cache.disk)
        invariant forall k :: 0 <= k < attempt ==> !Genuine(stored, fetched[k])
      {
        if fetched[attempt].Some? {
          var bytes := fetched[attempt].value;
          if |bytes| == stored.sizeBytes && cache.digest(bytes) == stored.sha256 {
            assert Genuine(stored, fetched[attempt]);
            entry := cache.Publish(stored.objectId, bytes, stored.sha256, now);
            return;
          }
        }
      }
    }

    predicate Genuine(stored: StoredObject, answer: Option<Bytes>)
    {
      answer.Some? && |answer.value| == stored.sizeBytes && cache.digest(answer.value) == stored.sha256
    }

    predicate SomeGenuine(stored: StoredObject, fetched: seq<Option<Bytes>>) {
      exists k :: 0 <= k < |fetched| && Genuine(stored, fetched[k])
    }

    /** The described object lies in the cache. */
    predicate Staged(stored: StoredObject)
      reads cache
    {
      LiesOn(cache.disk, stored)
    }

    predicate LiesOn(disk: map<Id, Bytes>, stored: StoredObject) {
      && stored.objectId in disk
      && cache.digest(disk[stored.objectId]) == stored.sha256 && |disk[stored.objectId]| == stored.sizeBytes
    }

    /**
     * Idempotent: only the first release of a handle gives its pin back.  That leaves the cache as it
     * was but for the victims of the eviction rule.
     */
    method Release(handle: nat, now: int)
      requires Valid() && handle < |handles|
      modifies this`handles, cache
      ensures Valid()
      ensures handles == old(handles)[handle := old(handles)[handle].(released := true)]
      ensures old(handles)[handle].released ==> cache.entries == old(cache.entries) && cache.disk == old(cache.disk)
      ensures !old(handles)[handle].released ==>
                GaveBack(old(cache.entries), old(cache.disk), cache.entries, cache.disk, old(handles)[handle].objectId, now,
                         cache.maxUnpinnedBytes)
    {
      if handles[handle].released {
        return;
      }
      var id := handles[handle].objectId;
      HeldIfUnreleased(handles, handle);
      ghost var before := handles;
      handles := handles[handle := handles[handle].(released := true)];
      cache.Release(id, now);
      forall x
        ensures cache.Pins(x) == Held(handles, x)
      {
        HeldRelease(before, handle, x);
      }
    }

    /** What was released with room in the cache is hydrated again without the backing store. */
    method HydrateAgain(handle: nat, stored: StoredObject, now: int, later: int) returns (again: Result<nat, HydrateError>)
      requires Valid() && handle < |handles| && !handles[handle].released
      requires stored.objectId == handles[handle].objectId && stored.available
      requires (stored.sha256, stored.sizeBytes) == identity(stored.objectId)
      requires UnpinnedBytes(Unheld(cache.entries, stored.objectId, now)) <= cache.maxUnpinnedBytes
      modifies this`handles, cache
      ensures Valid() && again.Ok? && cache.disk == old(cache.disk)
    {
      UnreleasedHandlesMatch(handle);
      ghost var entries, disk := cache.entries, cache.disk;
      Release(handle, now);
      RoomKeepsAll(entries, disk, cache.entries, cache.disk, stored.objectId, now, cache.maxUnpinnedBytes);
      assert Staged(stored);
      again := Hydrate(stored, seq(hydrationAttempts, _ => None), true, later);
    }

    /** One of the first `n` objects of the manifest is object `k`, and its fetch had a genuine answer. */
    predicate FetchedBy(manifest: seq<StoredObject>, fetched: seq<seq<Option<Bytes>>>, k: nat, n: nat)
      requires k < |manifest| == |fetched| && n <= |manifest|
    {
      exists j :: 0 <= j < n && manifest[j].objectId == manifest[k].objectId && SomeGenuine(manifest[j], fetched[j])
    }

    /** Staged are the objects that were, and those fetched among the first `n`. */
    ghost predicate StagedSince(before: map<Id, Bytes>, disk: map<Id, Bytes>, manifest: seq<StoredObject>,
                                fetched: seq<seq<Option<Bytes>>>, n: nat)
      requires |manifest| == |fetched| && n <= |manifest|
    {
      forall k :: 0 <= k < |manifest| ==> (LiesOn(disk, manifest[k]) <==> LiesOn(before, manifest[k]) || FetchedBy(manifest, fetched, k, n))
    }

    /** Object `k` is there to be had: available, projected, and staged or fetched by then. */
    ghost predicate Obtainable(before: map<Id, Bytes>, manifest: seq<StoredObject>, fetched: seq<seq<Option<Bytes>>>,
                               materializes: seq<bool>, k: nat)
      requires k < |manifest| == |fetched| == |materializes|
    {
      manifest[k].available && materializes[k] && (LiesOn(before, manifest[k]) || FetchedBy(manifest, fetched, k, k + 1))
    }

    ghost predicate Described(manifest: seq<StoredObject>) {
      forall k :: 0 <= k < |manifest| ==> (manifest[k].sha256, manifest[k].sizeBytes) == identity(manifest[k].objectId)
    }

    ghost predicate AllObtainable(before: map<Id, Bytes>, manifest: seq<StoredObject>, fetched: seq<seq<Option<Bytes>>>,
                                  materializes: seq<bool>, n: nat)
      requires n <= |manifest| == |fetched| == |materializes|
    {
      forall k :: 0 <= k < n ==> Obtainable(before, manifest, fetched, materializes, k)
    }

    lemma FetchedOneMore(manifest: seq<StoredObject>, fetched: seq<seq<Option<Bytes>>>, k: nat, n: nat)
      requires k < |manifest| == |fetched| && n < |manifest|
      ensures FetchedBy(manifest, fetched, k, n + 1) <==>
              FetchedBy(manifest, fetched, k, n) || (manifest[n].objectId == manifest[k].objectId && SomeGenuine(manifest[n], fetched[n]))
    {
    }

    lemma ObtainableNow(before: map<Id, Bytes>, disk: map<Id, Bytes>, manifest: seq<StoredObject>, fetched: seq<seq<Option<Bytes>>>,
                        materializes: seq<bool>, n: nat)
      requires n < |manifest| == |fetched| == |materializes| && StagedSince(before, disk, manifest, fetched, n)
      ensures Obtainable(before, manifest, fetched, materializes, n) <==>
              manifest[n].available && materializes[n] && (LiesOn(disk, manifest[n]) || SomeGenuine(manifest[n], fetched[n]))
    {
      FetchedOneMore(manifest, fetched, n, n);
    }

    lemma ObtainableNext(before: map<Id, Bytes>, manifest: seq<StoredObject>, fetched: seq<seq<Option<Bytes>>>, materializes: seq<bool>,
                         n: nat)
      requires n < |manifest| == |fetched| == |materializes|
      requires AllObtainable(before, manifest, fetched, materializes, n) && Obtainable(before, manifest, fetched, materializes, n)
      ensures AllObtainable(before, manifest, fetched, materializes, n + 1)
    {
    }

    lemma StagedNext(before: map<Id, Bytes>, disk: map<Id, Bytes>, after: map<Id, Bytes>, manifest: seq<StoredObject>,
                     fetched: seq<seq<Option<Bytes>>>, n: nat)
      requires n < |manifest| == |fetched| && Described(manifest) && StagedSince(before, disk, manifest, fetched, n)
      requires LiesOn(disk, manifest[n]) || SomeGenuine(manifest[n], fetched[n])
      requires LiesOn(after, manifest[n]) && OthersLie(disk, after, manifest[n].objectId)
      ensures StagedSince(before, after, manifest, fetched, n + 1)
    {
      forall k | 0 <= k < |manifest|
        ensures LiesOn(after, manifest[k]) <==> LiesOn(before, manifest[k]) || FetchedBy(manifest, fetched, k, n + 1)
      {
        FetchedOneMore(manifest, fetched, k, n);
        var id := manifest[k].objectId;
        if id != manifest[n].objectId {
          assert id in after - {manifest[n].objectId} <==> id in disk - {manifest[n].objectId};
        }
      }
    }

    /**
     * Hydrate a whole manifest, or release everything again.  It succeeds exactly if every object
     * is available, projected, and staged before or genuinely fetched for it or an earlier mention.
     */
    method Prefetch(manifest: seq<StoredObject>, fetched: seq<seq<Option<Bytes>>>, materializes: seq<bool>, now: int)
      returns (acquired: Result<seq<nat>, HydrateError>)
      requires Valid() && |fetched| == |manifest| == |materializes|
      requires Described(manifest) && forall k :: 0 <= k < |fetched| ==> |fetched[k]| == hydrationAttempts
      modifies this`handles, cache
      ensures Valid()
      ensures acquired.Ok? ==> handles == old(handles) + Opened(manifest) && |acquired.value| == |manifest|
      ensures acquired.Ok? ==> forall k :: 0 <= k < |manifest| ==> acquired.value[k] == |old(handles)| + k
      ensures acquired.Ok? <==>
                AllObtainable(old(cache.disk), manifest, fetched, materializes, |manifest|)
      ensures acquired.Err? ==> forall x :: cache.Pins(x) == old(cache.Pins(x))
      ensures acquired.Err? ==> |old(handles)| <= |handles| && handles[..|old(handles)|] == old(handles)
    {
      var got: seq<nat> := [];
      ghost var before, disk, staged := handles, cache.disk, cache.disk;
      for k := 0 to |manifest|
        invariant Valid() && |got| == k
        invariant handles == before + Opened(manifest[..k])
        invariant forall j :: 0 <= j < k ==> got[j] == |before| + j
        invariant staged == cache.disk && StagedSince(disk, staged, manifest, fetched, k)
        invariant AllObtainable(disk, manifest, fetched, materializes, k)
      {
        ObtainableNow(disk, staged, manifest, fetched, materializes, k);
        var handle := Hydrate(manifest[k], fetched[k], materializes[k], now);
        if handle.Err? {
          ReleaseAll(got, before, manifest[..k], now);
          return Err(handle.error);
        }
        StagedNext(disk, staged, cache.disk, manifest, fetched, k);
        staged := cache.disk;
        ObtainableNext(disk, manifest, fetched, materializes, k);
        assert manifest[..k + 1][..k] == manifest[..k];
        OpenedLength(manifest[..k]);
        got := got + [handle.value];
      }
      assert manifest[..|manifest|] == manifest;
      acquired := Ok(got);
    }

    method ReleaseAll(got: seq<nat>, ghost before: seq<Handle>, ghost hydrated: seq<StoredObject>, now: int)
      requires Valid() && |got| == |hydrated|
      requires handles == before + Opened(hydrated)
      requires forall j :: 0 <= j < |got| ==> got[j] == |before| + j
      modifies this`handles, cache
      ensures Valid() && |before| <= |handles| && handles[..|before|] == before
      ensures forall x :: cache.Pins(x) == Held(before, x)
      ensures Total(old(cache.entries), old(cache.entries).Keys) <= cache.maxUnpinnedBytes ==> cache.disk == old(cache.disk)
    {
      OpenedLength(hydrated);
      for j := 0 to |got|
        invariant Valid() && |handles| == |before| + |got| && handles[..|before|] == before
        invariant forall i :: |before| <= i < |before| + j ==> handles[i].released
        invariant Total(old(cache.entries), old(cache.entries).Keys) <= cache.maxUnpinnedBytes ==>
                    cache.disk == old(cache.disk) && Total(cache.entries, cache.entries.Keys) <= cache.maxUnpinnedBytes
      {
        ghost var entries, disk, id := cache.entries, cache.disk, handles[got[j]].objectId;
        Release(got[j], now);
        if GaveBack(entries, disk, cache.entries, cache.disk, id, now, cache.maxUnpinnedBytes) &&
           Total(entries, entries.Keys) <= cache.maxUnpinnedBytes {
          RoomForAll(entries, disk, cache.entries, cache.disk, id, now, cache.maxUnpinnedBytes);
        }
      }
      forall x
        ensures Held(handles, x) == Held(before, x)
      {
        assert handles == before + handles[|before|..];
        ReleasedTail(before, handles[|before|..], x);
      }
    }
  }

  /** The handles a manifest yields. */
  function Opened(manifest: seq<StoredObject>): seq<Handle> {
    if manifest == [] then []
    else
      var last := manifest[|manifest| - 1];
      Opened(manifest[..|manifest| - 1]) + [Handle(last.objectId, last.sha256, last.sizeBytes, false)]
  }

  lemma {:induction false} OpenedLength(manifest: seq<StoredObject>)
    ensures |Opened(manifest)| == |manifest|
  {
    if manifest != [] {
      OpenedLength(manifest[..|manifest| - 1]);
    }
  }

  lemma {:induction false} ReleasedTail(front: seq<Handle>, back: seq<Handle>, id: Id)
    requires forall i :: 0 <= i < |back| ==> back[i].released
    ensures Held(front + back, id) == Held(front, id)
  {
    if back == [] {
      assert front + back == front;
    } else {
      ReleasedTail(front, back[..|back| - 1], id);
      assert (front + back)[..|front + back| - 1] == front + back[..|back| - 1];
    }
  }
}
