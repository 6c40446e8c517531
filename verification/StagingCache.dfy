/**
 * The pinned, size-bounded staging cache of packages/core/src/media-store.ts.  Ids are the
 * numbers their hexadecimal digits spell, so their order is the order of the lower-case ids;
 * the digest is an uninterpreted function of the bytes.
 */
module StagingCache {
  import opened Prelude

  type Id = nat
  type Bytes = seq<int>

  datatype Entry = Entry(sha256: string, sizeBytes: nat, pins: nat, lastUsed: int)

  // ---------------------------------------------------------------------------
  // Sizes of sets of entries
  // ---------------------------------------------------------------------------

  ghost function Total(entries: map<Id, Entry>, ids: set<Id>): nat
    requires ids <= entries.Keys
  {
    if ids == {} then 0
    else
      var x :| x in ids;
      entries[x].sizeBytes + Total(entries, ids - {x})
  }

  lemma {:induction false} TotalWithout(entries: map<Id, Entry>, ids: set<Id>, x: Id)
    requires ids <= entries.Keys && x in ids
    ensures Total(entries, ids) == entries[x].sizeBytes + Total(entries, ids - {x})
  {
    var y :| y in ids && Total(entries, ids) == entries[y].sizeBytes + Total(entries, ids - {y});
    if x != y {
      TotalWithout(entries, ids - {y}, x);
      TotalWithout(entries, ids - {x}, y);
      assert ids - {y} - {x} == ids - {x} - {y};
    }
  }

  lemma {:induction false} TotalSame(entries: map<Id, Entry>, others: map<Id, Entry>, ids: set<Id>)
    requires ids <= entries.Keys && ids <= others.Keys
    requires forall x :: x in ids ==> entries[x].sizeBytes == others[x].sizeBytes
    ensures Total(entries, ids) == Total(others, ids)
  {
    if ids != {} {
      var x :| x in ids;
      TotalWithout(entries, ids, x);
      TotalWithout(others, ids, x);
      TotalSame(entries, others, ids - {x});
    }
  }

  lemma {:induction false} TotalGrows(entries: map<Id, Entry>, some: set<Id>, ids: set<Id>)
    requires some <= ids <= entries.Keys
    ensures Total(entries, some) <= Total(entries, ids)
  {
    if some != ids {
      var x :| x in ids && x !in some;
      TotalWithout(entries, ids, x);
      TotalGrows(entries, some, ids - {x});
    }
  }

  function Unpinned(entries: map<Id, Entry>, preserve: Option<Id>): set<Id> {
    set x | x in entries && entries[x].pins == 0 && Some(x) != preserve
  }

  ghost function UnpinnedBytes(entries: map<Id, Entry>): nat {
    Total(entries, Unpinned(entries, None))
  }

  // ---------------------------------------------------------------------------
  // Eviction
  // ---------------------------------------------------------------------------

  /** Least recently used first, ids breaking ties. */
  predicate Before(entries: map<Id, Entry>, a: Id, b: Id)
    requires a in entries && b in entries
  {
    entries[a].lastUsed < entries[b].lastUsed || (entries[a].lastUsed == entries[b].lastUsed && a < b)
  }

  /**
   * `victims` is the shortest prefix of the candidates, in order of use, whose removal leaves
   * the rest within the quota; everything goes if even that is not enough.
   */
  ghost predicate IsEviction(entries: map<Id, Entry>, candidates: set<Id>, victims: set<Id>, incoming: nat, quota: nat)
    requires candidates <= entries.Keys
  {
    && victims <= candidates
    && (forall v, u :: v in victims && u in candidates && u !in victims ==> Before(entries, v, u))
    && (Total(entries, candidates - victims) + incoming <= quota || victims == candidates)
    && (forall v :: v in victims && (forall u :: u in victims && u != v ==> Before(entries, u, v)) ==>
          Total(entries, candidates - (victims - {v})) + incoming > quota)
  }

  lemma LastOf(entries: map<Id, Entry>, ids: set<Id>) returns (last: Id)
    requires ids != {} && ids <= entries.Keys
    ensures last in ids && forall u :: u in ids && u != last ==> Before(entries, u, last)
  {
    var x :| x in ids;
    if ids == {x} {
      last := x;
    } else {
      var y := LastOf(entries, ids - {x});
      last := if Before(entries, x, y) then y else x;
      assert forall u :: u in ids && u != x ==> u in ids - {x};
    }
  }

  /** The eviction rule leaves no choice. */
  lemma EvictionIsUnique(entries: map<Id, Entry>, candidates: set<Id>, a: set<Id>, b: set<Id>, incoming: nat, quota: nat)
    requires candidates <= entries.Keys
    requires IsEviction(entries, candidates, a, incoming, quota) && IsEviction(entries, candidates, b, incoming, quota)
    ensures a == b
  {
    if !(a <= b) {
      LargerIsNotShortest(entries, candidates, b, a, incoming, quota);
    }
    if !(b <= a) {
      LargerIsNotShortest(entries, candidates, a, b, incoming, quota);
    }
  }

  /** What fits already loses nothing. */
  lemma NothingToEvict(entries: map<Id, Entry>, candidates: set<Id>, victims: set<Id>, quota: nat)
    requires candidates <= entries.Keys && IsEviction(entries, candidates, victims, 0, quota)
    requires Total(entries, candidates) <= quota
    ensures victims == {}
  {
    assert candidates - {} == candidates;
    EvictionIsUnique(entries, candidates, victims, {}, 0, quota);
  }

  /** What goes was used before anything that stays, the lower id first among equally old ones. */
  lemma VictimsAreOldest(entries: map<Id, Entry>, candidates: set<Id>, victims: set<Id>, incoming: nat, quota: nat, v: Id, u: Id)
    requires candidates <= entries.Keys && IsEviction(entries, candidates, victims, incoming, quota)
    requires v in victims && u in candidates && u !in victims
    ensures entries[v].lastUsed <= entries[u].lastUsed && (entries[v].lastUsed == entries[u].lastUsed ==> v < u)
  {
    assert Before(entries, v, u);
  }

  lemma LargerIsNotShortest(entries: map<Id, Entry>, candidates: set<Id>, small: set<Id>, large: set<Id>, incoming: nat, quota: nat)
    requires candidates <= entries.Keys
    requires IsEviction(entries, candidates, small, incoming, quota) && IsEviction(entries, candidates, large, incoming, quota)
    ensures large <= small
  {
    if !(large <= small) {
      var x :| x in large && x !in small;
      forall v | v in small
        ensures v in large
      {
        assert Before(entries, v, x);
        assert !Before(entries, x, v);
      }
      assert forall v :: v in small ==> Before(entries, v, x);
      var last := LastOf(entries, large);
      assert x == last || Before(entries, x, last);
      assert last !in small;
      var kept := candidates - (large - {last});
      assert kept <= candidates - small;
      TotalGrows(entries, kept, candidates - small);
    }
  }

  function QueueTotal(entries: map<Id, Entry>, queue: seq<Id>): nat
    requires forall x :: x in queue ==> x in entries
  {
    if queue == [] then 0
    else QueueTotal(entries, queue[..|queue| - 1]) + entries[queue[|queue| - 1]].sizeBytes
  }

  lemma {:induction false} QueueTotalIsTotal(entries: map<Id, Entry>, queue: seq<Id>, ids: set<Id>)
    requires ids <= entries.Keys && forall x :: x in queue <==> x in ids
    requires forall i, j :: 0 <= i < j < |queue| ==> Before(entries, queue[i], queue[j])
    ensures QueueTotal(entries, queue) == Total(entries, ids)
  {
    if queue == [] {
      assert ids == {};
    } else {
      var front, last := queue[..|queue| - 1], queue[|queue| - 1];
      assert queue == front + [last];
      assert last !in front;
      TotalWithout(entries, ids, last);
      QueueTotalIsTotal(entries, front, ids - {last});
    }
  }

  lemma EvictOne(entries: map<Id, Entry>, candidates: set<Id>, victims: set<Id>, victim: Id)
    requires victims <= candidates <= entries.Keys && victim in candidates && victim !in victims
    ensures Total(entries, candidates - victims) == entries[victim].sizeBytes + Total(entries, candidates - (victims + {victim}))
    ensures candidates - ((victims + {victim}) - {victim}) == candidates - victims
  {
    TotalWithout(entries, candidates - victims, victim);
    assert candidates - victims - {victim} == candidates - (victims + {victim});
    assert (victims + {victim}) - {victim} == victims;
  }

  lemma AfterEviction(entries: map<Id, Entry>, victims: set<Id>, preserve: Option<Id>)
    requires victims <= Unpinned(entries, preserve)
    ensures entries.Keys - (entries - victims).Keys == victims
    ensures Unpinned(entries - victims, preserve) == Unpinned(entries, preserve) - victims
    ensures Total(entries - victims, Unpinned(entries - victims, preserve)) == Total(entries, Unpinned(entries, preserve) - victims)
  {
    TotalSame(entries, entries - victims, Unpinned(entries, preserve) - victims);
  }

  /** The first `k` of a queue. */
  function Front(queue: seq<Id>, k: nat): set<Id>
    requires k <= |queue|
  {
    set x | x in queue[..k]
  }

  lemma EvictNext(entries: map<Id, Entry>, candidates: set<Id>, queue: seq<Id>, k: nat)
    requires candidates <= entries.Keys && forall x :: x in queue <==> x in candidates
    requires forall i, j :: 0 <= i < j < |queue| ==> Before(entries, queue[i], queue[j])
    requires k < |queue|
    ensures queue[k] in entries && queue[k] !in Front(queue, k)
    ensures Front(queue, k + 1) == Front(queue, k) + {queue[k]}
    ensures Total(entries, candidates - Front(queue, k)) == entries[queue[k]].sizeBytes + Total(entries, candidates - Front(queue, k + 1))
    ensures candidates - (Front(queue, k + 1) - {queue[k]}) == candidates - Front(queue, k)
  {
    assert queue[..k + 1] == queue[..k] + [queue[k]];
    assert queue[k] in queue;
    assert forall x :: x in queue[..k] ==> x in queue;
    EvictOne(entries, candidates, Front(queue, k), queue[k]);
  }

  lemma RemoveOneMore<V>(m: map<Id, V>, victims: set<Id>, victim: Id)
    ensures m - victims - {victim} == m - (victims + {victim})
  {
  }

  /** The entries of the files found on disk: unpinned, and last used when they were written. */
  function Found(digest: Bytes -> string, files: map<Id, Bytes>, modified: map<Id, int>): map<Id, Entry>
    requires modified.Keys == files.Keys
  {
    map x | x in files :: Entry(digest(files[x]), |files[x]|, 0, modified[x])
  }

  lemma FoundIsUnpinned(digest: Bytes -> string, files: map<Id, Bytes>, modified: map<Id, int>)
    requires modified.Keys == files.Keys
    ensures Found(digest, files, modified).Keys == files.Keys
    ensures Unpinned(Found(digest, files, modified), None) == files.Keys
  {
  }

  class StagingCache {
    const maxUnpinnedBytes: nat
    const digest: Bytes -> string
    var entries: map<Id, Entry>
    var disk: map<Id, Bytes>

    /** Entries describe the files they stand for, and what nobody has pinned fits the quota. */
    ghost predicate Valid()
      reads this
    {
      && (forall x :: x in entries ==>
            x in disk && entries[x].sizeBytes == |disk[x]| && entries[x].sha256 == digest(disk[x]))
      && UnpinnedBytes(entries) <= maxUnpinnedBytes
    }

    function Pins(id: Id): nat
      reads this
    {
      if id in entries then entries[id].pins else 0
    }

    /** The ids given, least recently used first. */
    method SortByUse(ids: set<Id>) returns (queue: seq<Id>)
      requires ids <= entries.Keys
      ensures forall x :: x in queue <==> x in ids
      ensures forall i, j :: 0 <= i < j < |queue| ==> Before(entries, queue[i], queue[j])
    {
      queue := [];
      var rest := ids;
      while rest != {}
        invariant rest <= ids
        invariant forall x :: x in queue <==> x in ids && x !in rest
        invariant forall i, j :: 0 <= i < j < |queue| ==> Before(entries, queue[i], queue[j])
        invariant forall x, y :: x in queue && y in rest ==> Before(entries, x, y)
        decreases rest
      {
        var next := Oldest(rest);
        queue := queue + [next];
        rest := rest - {next};
      }
    }

    method Oldest(ids: set<Id>) returns (oldest: Id)
      requires ids != {} && ids <= entries.Keys
      ensures oldest in ids && forall x :: x in ids && x != oldest ==> Before(entries, oldest, x)
    {
      oldest :| oldest in ids;
      var rest := ids - {oldest};
      while rest != {}
        invariant rest <= ids && oldest in ids
        invariant forall x :: x in ids && x !in rest && x != oldest ==> Before(entries, oldest, x)
        decreases rest
      {
        var x :| x in rest;
        rest := rest - {x};
        if entries[x].lastUsed < entries[oldest].lastUsed || (entries[x].lastUsed == entries[oldest].lastUsed && x < oldest) {
          oldest := x;
        }
      }
    }

    /** Rebuild the entries from the files found at start, then bring them within the quota. */
    constructor Load(quota: nat, digest: Bytes -> string, files: map<Id, Bytes>, modified: map<Id, int>)
      requires modified.Keys == files.Keys
      ensures Valid() && maxUnpinnedBytes == quota && this.digest == digest
      ensures var found := Found(digest, files, modified);
              var victims := files.Keys - entries.Keys;
              && IsEviction(found, files.Keys, victims, 0, quota)
              && entries == found - victims && disk == files - victims
      ensures forall x :: Pins(x) == 0
    {
      maxUnpinnedBytes := quota;
      this.digest := digest;
      disk := files;
      entries := Found(digest, files, modified);
      new;
      FoundIsUnpinned(digest, files, modified);
      ghost var found := entries;
      var evicted := EvictFor(0, None);
      assert found.Keys - entries.Keys == files.Keys - entries.Keys;
      assert forall x :: x in entries ==> entries[x] == found[x];
    }

    ghost predicate Described()
      reads this
    {
      forall x :: x in entries ==> x in disk && entries[x].sizeBytes == |disk[x]| && entries[x].sha256 == digest(disk[x])
    }

    /** Only the victims go, from the table and from disk, and they are the ones the rule names. */
    twostate predicate Evicted(incoming: nat, preserve: Option<Id>)
      reads this
    {
      var candidates := Unpinned(old(entries), preserve);
      var victims := old(entries).Keys - entries.Keys;
      && entries == old(entries) - victims
      && disk == old(disk) - victims
      && IsEviction(old(entries), candidates, victims, incoming, maxUnpinnedBytes)
    }

    method EvictFor(incoming: nat, preserve: Option<Id>) returns (ok: bool)
      requires Described()
      modifies this`entries, this`disk
      ensures Described() && Evicted(incoming, preserve)
      ensures ok <==> Total(entries, Unpinned(entries, preserve)) + incoming <= maxUnpinnedBytes
      ensures incoming <= maxUnpinnedBytes ==> ok
    {
      ghost var before, candidates := entries, Unpinned(entries, preserve);
      var queue := SortByUse(Unpinned(entries, preserve));
      var used := SumSizes(queue);
      QueueTotalIsTotal(entries, queue, candidates);
      ghost var k;
      used, k := DropUntilFits(queue, used, incoming, candidates);
      ShortestPrefix(before, candidates, queue, k, Front(queue, k), incoming, maxUnpinnedBytes);
      AfterEviction(before, Front(queue, k), preserve);
      ok := used + incoming <= maxUnpinnedBytes;
    }

    /** Delete from the front of the queue until the incoming bytes fit, or nothing is left. */
    method DropUntilFits(queue: seq<Id>, total: nat, incoming: nat, ghost candidates: set<Id>) returns (used: nat, ghost k: nat)
      requires candidates <= entries.Keys && forall x :: x in queue <==> x in candidates
      requires forall i, j :: 0 <= i < j < |queue| ==> Before(entries, queue[i], queue[j])
      requires total == Total(entries, candidates)
      modifies this`entries, this`disk
      ensures k <= |queue|
      ensures entries == old(entries) - Front(queue, k) && disk == old(disk) - Front(queue, k)
      ensures used == Total(old(entries), candidates - Front(queue, k))
      ensures used + incoming <= maxUnpinnedBytes || k == |queue|
      ensures k > 0 ==> Total(old(entries), candidates - (Front(queue, k) - {queue[k - 1]})) + incoming > maxUnpinnedBytes
    {
      ghost var before := entries;
      var rest := queue;
      used, k := total, 0;
      assert Front(queue, 0) == {} && candidates - {} == candidates;
      while used + incoming > maxUnpinnedBytes && |rest| > 0
        invariant k <= |queue| && rest == queue[k..]
        invariant entries == before - Front(queue, k) && disk == old(disk) - Front(queue, k)
        invariant used == Total(before, candidates - Front(queue, k))
        invariant k > 0 ==> Total(before, candidates - (Front(queue, k) - {queue[k - 1]})) + incoming > maxUnpinnedBytes
        decreases |rest|
      {
        var victim := rest[0];
        EvictNext(before, candidates, queue, k);
        RemoveOneMore(before, Front(queue, k), victim);
        RemoveOneMore(old(disk), Front(queue, k), victim);
        disk := disk - {victim};
        used := used - entries[victim].sizeBytes;
        entries := entries - {victim};
        rest := rest[1..];
        k := k + 1;
      }
    }

    method SumSizes(queue: seq<Id>) returns (sum: nat)
      requires forall x :: x in queue ==> x in entries
      ensures sum == QueueTotal(entries, queue)
    {
      sum := 0;
      for k := 0 to |queue|
        invariant sum == QueueTotal(entries, queue[..k])
      {
        assert queue[..k + 1][..k] == queue[..k];
        sum := sum + entries[queue[k]].sizeBytes;
      }
      assert queue[..|queue|] == queue;
    }

    /** Pin a staged object if its file is there and is the described object; drop it otherwise. */
    method Acquire(id: Id, expectedSha256: string, expectedSize: nat, now: int) returns (entry: Option<Entry>)
      requires Valid()
      modifies this`entries, this`disk
      ensures Valid()
      ensures entry.Some? <==> id in old(disk) && digest(old(disk)[id]) == expectedSha256 && |old(disk)[id]| == expectedSize
      ensures entry.Some? ==>
                && disk == old(disk) && entry.value == Entry(expectedSha256, expectedSize, old(Pins(id)) + 1, now)
                && entries == old(entries)[id := entry.value]
      ensures entry.None? ==> entries == old(entries) - {id} && disk == old(disk) - {id}
    {
      ghost var before := entries;
      if id !in disk {
        assert entries == entries - {id} && disk == disk - {id};
        return None;
      }
      var bytes := disk[id];
      if digest(bytes) != expectedSha256 || |bytes| != expectedSize {
        disk := disk - {id};
        entries := entries - {id};
        FewerUnpinned(before, entries);
        return None;
      }
      var found := if id in entries then entries[id] else Entry(digest(bytes), |bytes|, 0, now);
      found := found.(pins := found.pins + 1, lastUsed := now);
      entries := entries[id := found];
      FewerUnpinned(before, entries);
      entry := Some(found);
    }

    /** Eviction for an entry that is about to be pinned: within the quota, nothing goes. */
    method EvictBeside(id: Id)
      requires Valid()
      modifies this`entries, this`disk
      ensures entries == old(entries) && disk == old(disk)
      ensures Total(entries, Unpinned(entries, Some(id))) <= maxUnpinnedBytes
    {
      TotalGrows(entries, Unpinned(entries, Some(id)), Unpinned(entries, None));
      var ok := EvictFor(0, Some(id));
      NothingToEvict(old(entries), Unpinned(old(entries), Some(id)), old(entries).Keys - entries.Keys, maxUnpinnedBytes);
    }

    /**
     * Stage freshly fetched bytes, pinned for this caller.  What nobody has pinned fits the quota
     * already, so nothing is evicted.  An entry already there keeps its description, so the table
     * stays true of the disk exactly when the bytes fit it.
     */
    method Publish(id: Id, bytes: Bytes, sha256: string, now: int) returns (entry: Option<Entry>)
      requires Valid()
      modifies this`entries, this`disk
      ensures Valid() <==> (entry.Some? && id in old(entries) ==>
                              old(entries)[id].sha256 == sha256 && old(entries)[id].sizeBytes == |bytes|)
      ensures UnpinnedBytes(entries) <= maxUnpinnedBytes
      ensures entry.Some? <==> digest(bytes) == sha256
      ensures entry.None? ==> entries == old(entries) && disk == old(disk)
      ensures entry.Some? ==>
                && entry.value == (if id in old(entries) then old(entries)[id].(pins := old(entries)[id].pins + 1, lastUsed := now)
                                   else Entry(sha256, |bytes|, 1, now))
                && entries == old(entries)[id := entry.value] && disk == old(disk)[id := bytes]
    {
      if digest(bytes) != sha256 {
        return None;
      }
      EvictBeside(id);
      ghost var mid := entries;
      disk := disk[id := bytes];
      var made := if id in entries then entries[id].(pins := entries[id].pins + 1, lastUsed := now)
                  else Entry(sha256, |bytes|, 1, now);
      entries := entries[id := made];
      PinnedAside(mid, entries, id);
      entry := Some(made);
    }

    /** Give one pin back; the last one makes the entry evictable. */
    method Release(id: Id, now: int)
      requires Valid()
      modifies this`entries, this`disk
      ensures Valid()
      ensures forall x :: Pins(x) == if x == id && old(Pins(id)) > 0 then old(Pins(id)) - 1 else old(Pins(x))
      ensures forall x :: x in entries ==> x in old(entries) && x in old(disk) && disk[x] == old(disk)[x]
      ensures forall x :: x in entries ==> entries[x].sha256 == old(entries)[x].sha256 && entries[x].sizeBytes == old(entries)[x].sizeBytes
      ensures forall x :: old(Pins(x)) > 0 && (x != id || old(Pins(x)) > 1) ==> x in entries
      ensures old(Pins(id)) == 0 ==> entries == old(entries) && disk == old(disk)
      ensures old(Pins(id)) > 0 ==> GaveBack(old(entries), old(disk), entries, disk, id, now, maxUnpinnedBytes)
    {
      if id !in entries || entries[id].pins == 0 {
        return;
      }
      var entry := entries[id];
      entries := entries[id := entry.(pins := entry.pins - 1, lastUsed := now)];
      assert entries == Unheld(old(entries), id, now);
      label released:
      var ok := EvictFor(0, None);
      assert GaveBack(old(entries), old(disk), entries, disk, id, now, maxUnpinnedBytes);
      forall x
        ensures Pins(x) == if x == id && old(Pins(id)) > 0 then old(Pins(id)) - 1 else old(Pins(x))
      {
        assert old@released(x in entries && x !in Unpinned(entries, None)) ==> x in entries;
      }
    }

    method Remove(id: Id) returns (ok: bool)
      requires Valid()
      modifies this`entries, this`disk
      ensures Valid()
      ensures ok <==> old(Pins(id)) == 0
      ensures if ok then entries == old(entries) - {id} && disk == old(disk) - {id}
              else entries == old(entries) && disk == old(disk)
    {
      if id in entries && entries[id].pins > 0 {
        return false;
      }
      ghost var before := entries;
      disk := disk - {id};
      entries := entries - {id};
      FewerUnpinned(before, entries);
      ok := true;
    }
  }

  /** The table with one pin of `id` given back. */
  function Unheld(entries: map<Id, Entry>, id: Id, now: int): map<Id, Entry> {
    if id in entries && entries[id].pins > 0 then entries[id := entries[id].(pins := entries[id].pins - 1, lastUsed := now)]
    else entries
  }

  /** One pin of `id` is back: its entry is touched, and gone are just the victims of the eviction rule. */
  ghost predicate GaveBack(former: map<Id, Entry>, formerDisk: map<Id, Bytes>, entries: map<Id, Entry>, disk: map<Id, Bytes>, id: Id,
                           now: int, quota: nat)
  {
    var touched := Unheld(former, id, now);
    var victims := touched.Keys - entries.Keys;
    && entries == touched - victims && disk == formerDisk - victims
    && IsEviction(touched, Unpinned(touched, None), victims, 0, quota)
  }

  /** With room for what is unpinned now, every entry and every file stays. */
  lemma RoomKeepsAll(former: map<Id, Entry>, formerDisk: map<Id, Bytes>, entries: map<Id, Entry>, disk: map<Id, Bytes>, id: Id,
                     now: int, quota: nat)
    requires GaveBack(former, formerDisk, entries, disk, id, now, quota)
    requires UnpinnedBytes(Unheld(former, id, now)) <= quota
    ensures entries == Unheld(former, id, now) && disk == formerDisk
  {
    var touched := Unheld(former, id, now);
    NothingToEvict(touched, Unpinned(touched, None), touched.Keys - entries.Keys, quota);
  }

  /** With room for everything staged, giving pins back never loses a file. */
  lemma RoomForAll(former: map<Id, Entry>, formerDisk: map<Id, Bytes>, entries: map<Id, Entry>, disk: map<Id, Bytes>, id: Id,
                   now: int, quota: nat)
    requires GaveBack(former, formerDisk, entries, disk, id, now, quota) && Total(former, former.Keys) <= quota
    ensures disk == formerDisk && Total(entries, entries.Keys) <= quota
  {
    var touched := Unheld(former, id, now);
    assert touched.Keys == former.Keys;
    TotalSame(former, touched, former.Keys);
    TotalGrows(touched, Unpinned(touched, None), touched.Keys);
    RoomKeepsAll(former, formerDisk, entries, disk, id, now, quota);
  }

  /** Dropping or pinning entries never adds unpinned bytes. */
  lemma FewerUnpinned(entries: map<Id, Entry>, others: map<Id, Entry>)
    requires Unpinned(others, None) <= Unpinned(entries, None)
    requires forall x :: x in Unpinned(others, None) ==> others[x].sizeBytes == entries[x].sizeBytes
    ensures UnpinnedBytes(others) <= UnpinnedBytes(entries)
  {
    TotalSame(entries, others, Unpinned(others, None));
    TotalGrows(entries, Unpinned(others, None), Unpinned(entries, None));
  }

  /** A pinned entry set beside the others leaves exactly their unpinned bytes. */
  lemma PinnedAside(entries: map<Id, Entry>, others: map<Id, Entry>, id: Id)
    requires id in others && others == entries[id := others[id]] && others[id].pins > 0
    ensures UnpinnedBytes(others) == Total(entries, Unpinned(entries, Some(id)))
  {
    assert Unpinned(others, None) == Unpinned(entries, Some(id));
    TotalSame(entries, others, Unpinned(others, None));
  }

  lemma ShortestPrefix(entries: map<Id, Entry>, candidates: set<Id>, queue: seq<Id>, k: nat, victims: set<Id>, incoming: nat, quota: nat)
    requires candidates <= entries.Keys && victims <= candidates && k <= |queue|
    requires forall x :: x in queue <==> x in candidates
    requires forall i, j :: 0 <= i < j < |queue| ==> Before(entries, queue[i], queue[j])
    requires forall x :: x in victims <==> x in queue[..k]
    requires k > 0 ==> Total(entries, candidates - (victims - {queue[k - 1]})) + incoming > quota
    requires Total(entries, candidates - victims) + incoming <= quota || k == |queue|
    ensures IsEviction(entries, candidates, victims, incoming, quota)
  {
    forall m | 0 <= m < k
      ensures queue[m] in victims
    {
      assert queue[..k][m] == queue[m];
    }
    forall v, u | v in victims && u in candidates && u !in victims
      ensures Before(entries, v, u)
    {
      var i :| 0 <= i < k && queue[..k][i] == v;
      var j :| 0 <= j < |queue| && queue[j] == u;
    }
    if k == |queue| {
      assert queue[..k] == queue;
      assert victims == candidates;
    }
    forall v | v in victims && (forall u :: u in victims && u != v ==> Before(entries, u, v))
      ensures Total(entries, candidates - (victims - {v})) + incoming > quota
    {
      var i :| 0 <= i < k && queue[..k][i] == v;
      assert queue[..k][k - 1] in victims;
      assert v == queue[k - 1];
    }
  }
}
