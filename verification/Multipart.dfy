/**
 * Immutable objects of the local backend (packages/core/src/media-store.ts) and the assembly of a
 * multipart upload.
 */
module Multipart {
  import opened Prelude

  type Bytes = seq<int>

  const MAX_PART_NUMBER := 10_000

  datatype Head = Head(key: string, sizeBytes: nat, sha256: string)

  datatype Upload = Upload(key: string, parts: map<nat, Bytes>)

  datatype PartRef = PartRef(partNumber: nat, etag: string)

  /** One part as it arrived at the backend. */
  datatype Arrival = Arrival(uploadId: string, key: string, partNumber: nat, bytes: Bytes)

  datatype Error =
    | ChecksumMismatch
    | ImmutableConflict
    | KeyExists
    | UploadNotFound
    | WrongKey
    | BadPartNumber
    | PartConflict
    | NoParts
    | DuplicateParts
    | PartMissing
    | EtagMismatch
    | PartFailed

  // ---------------------------------------------------------------------------
  // Slicing and assembling
  // ---------------------------------------------------------------------------

  /** Part `k`, counted from one. */
  function Slice(file: Bytes, size: nat, k: nat): Bytes
    requires k >= 1
  {
    var start, end := Min(|file|, (k - 1) * size), Min(|file|, k * size);
    seq(end - start, i requires 0 <= i < end - start => file[start + i])
  }

  /** Part `k` is `file.slice((k - 1) * size, min(file.size, k * size))`. */
  lemma SliceIsRange(file: Bytes, size: nat, k: nat)
    requires k >= 1
    ensures Min(|file|, (k - 1) * size) <= Min(|file|, k * size)
    ensures Slice(file, size, k) == file[Min(|file|, (k - 1) * size)..Min(|file|, k * size)]
  {
  }

  /** The first `n` parts one behind the other. */
  function Assembled(parts: map<nat, Bytes>, n: nat): Bytes {
    if n == 0 then [] else Assembled(parts, n - 1) + if n in parts then parts[n] else []
  }

  predicate HoldsSlices(parts: map<nat, Bytes>, file: Bytes, size: nat, n: nat) {
    forall k :: 1 <= k <= n ==> k in parts && parts[k] == Slice(file, size, k)
  }

  lemma Adjoin(file: Bytes, a: nat, b: nat)
    requires a <= b <= |file|
    ensures file[..a] + file[a..b] == file[..b]
  {
  }

  lemma SliceAdjoins(file: Bytes, size: nat, k: nat)
    requires k >= 1
    ensures file[..Min(|file|, (k - 1) * size)] + Slice(file, size, k) == file[..Min(|file|, k * size)]
  {
    SliceIsRange(file, size, k);
    Adjoin(file, Min(|file|, (k - 1) * size), Min(|file|, k * size));
  }

  /** Slices one behind the other are the file again. */
  lemma {:induction false} SlicesAssemble(parts: map<nat, Bytes>, file: Bytes, size: nat, n: nat)
    requires HoldsSlices(parts, file, size, n)
    ensures Assembled(parts, n) == file[..Min(|file|, n * size)]
  {
    if n > 0 {
      SlicesAssemble(parts, file, size, n - 1);
      SliceAdjoins(file, size, n);
    }
  }

  /** `toLowerCase` on the letters a checksum may have. */
  function Lower(s: string): string {
    seq(|s|, i requires 0 <= i < |s| => if 'A' <= s[i] <= 'Z' then s[i] - 'A' + 'a' else s[i])
  }

  function StripEtag(etag: string): string {
    var front := if |etag| > 0 && etag[0] == '"' then etag[1..] else etag;
    if |front| > 0 && front[|front| - 1] == '"' then front[..|front| - 1] else front
  }

  /** An entity tag names the digest with or without its quotation marks. */
  lemma TagNamesDigest(digest: string)
    requires '"' !in digest
    ensures StripEtag(digest) == digest
    ensures StripEtag("\"" + digest + "\"") == digest
  {
    var tag := "\"" + digest + "\"";
    assert tag[1..] == digest + "\"";
    assert (digest + "\"")[..|digest|] == digest;
  }

  function InsertByNumber(part: PartRef, sorted: seq<PartRef>): seq<PartRef> {
    if sorted == [] || part.partNumber < sorted[0].partNumber then [part] + sorted
    else [sorted[0]] + InsertByNumber(part, sorted[1..])
  }

  /** A stable sort by part number. */
  function SortByNumber(parts: seq<PartRef>): seq<PartRef> {
    if parts == [] then [] else InsertByNumber(parts[|parts| - 1], SortByNumber(parts[..|parts| - 1]))
  }

  predicate Ascending(parts: seq<PartRef>) {
    forall i, j :: 0 <= i < j < |parts| ==> parts[i].partNumber <= parts[j].partNumber
  }

  predicate NoDuplicates(parts: seq<PartRef>) {
    forall i, j :: 0 <= i < j < |parts| ==> parts[i].partNumber != parts[j].partNumber
  }

  lemma {:induction false} InsertAddsOne(part: PartRef, sorted: seq<PartRef>)
    ensures forall x :: x in InsertByNumber(part, sorted) <==> x == part || x in sorted
    ensures |InsertByNumber(part, sorted)| == |sorted| + 1
  {
    if sorted != [] && part.partNumber >= sorted[0].partNumber {
      InsertAddsOne(part, sorted[1..]);
      assert sorted == [sorted[0]] + sorted[1..];
    }
  }

  lemma {:induction false} InsertKeepsAscending(part: PartRef, sorted: seq<PartRef>)
    requires Ascending(sorted)
    ensures Ascending(InsertByNumber(part, sorted))
  {
    if sorted != [] && part.partNumber >= sorted[0].partNumber {
      InsertKeepsAscending(part, sorted[1..]);
      InsertAddsOne(part, sorted[1..]);
      var rest := InsertByNumber(part, sorted[1..]);
      assert forall i :: 0 <= i < |rest| ==> rest[i] in rest;
    }
  }

  lemma {:induction false} SortSorts(parts: seq<PartRef>)
    ensures Ascending(SortByNumber(parts))
    ensures forall x :: x in SortByNumber(parts) <==> x in parts
    ensures |SortByNumber(parts)| == |parts|
  {
    if parts != [] {
      SortSorts(parts[..|parts| - 1]);
      InsertKeepsAscending(parts[|parts| - 1], SortByNumber(parts[..|parts| - 1]));
      InsertAddsOne(parts[|parts| - 1], SortByNumber(parts[..|parts| - 1]));
      assert parts == parts[..|parts| - 1] + [parts[|parts| - 1]];
    }
  }

  /** `parts` names each of `1..n` exactly once, in some order. */
  predicate NamesEachOnce(parts: seq<PartRef>, n: nat) {
    && |parts| == n
    && (forall i :: 0 <= i < |parts| ==> 1 <= parts[i].partNumber <= n)
    && NoDuplicates(parts)
  }

  /** Sorting a list that names each part once yields the parts in order. */
  lemma SortedNamesInOrder(parts: seq<PartRef>, n: nat)
    requires NamesEachOnce(parts, n) && NoDuplicates(SortByNumber(parts))
    ensures |SortByNumber(parts)| == n
    ensures forall k :: 0 <= k < n ==> SortByNumber(parts)[k].partNumber == k + 1
  {
    SortSorts(parts);
    var sorted := SortByNumber(parts);
    assert forall i :: 0 <= i < n ==> sorted[i] in sorted;
    Pigeonhole(sorted, n);
  }

  lemma Pigeonhole(sorted: seq<PartRef>, n: nat)
    requires |sorted| == n && Ascending(sorted) && NoDuplicates(sorted)
    requires forall i :: 0 <= i < n ==> 1 <= sorted[i].partNumber <= n
    ensures forall k :: 0 <= k < n ==> sorted[k].partNumber == k + 1
  {
    forall k | 0 <= k < n
      ensures sorted[k].partNumber == k + 1
    {
      AtLeast(sorted, k);
      AtMost(sorted, n, k);
    }
  }

  lemma {:induction false} AtLeast(sorted: seq<PartRef>, k: nat)
    requires k < |sorted| && Ascending(sorted) && NoDuplicates(sorted)
    requires sorted[0].partNumber >= 1
    ensures sorted[k].partNumber >= k + 1
  {
    if k > 0 {
      AtLeast(sorted, k - 1);
      assert sorted[k - 1].partNumber != sorted[k].partNumber;
    }
  }

  lemma {:induction false} AtMost(sorted: seq<PartRef>, n: nat, k: nat)
    requires k < |sorted| == n && Ascending(sorted) && NoDuplicates(sorted)
    requires sorted[n - 1].partNumber <= n
    ensures sorted[k].partNumber <= k + 1
    decreases n - k
  {
    if k < n - 1 {
      AtMost(sorted, n, k + 1);
      assert sorted[k].partNumber != sorted[k + 1].partNumber;
    }
  }

  /** Sorting neither creates nor removes duplicates. */
  lemma {:induction false} SortKeepsDistinct(parts: seq<PartRef>)
    ensures NoDuplicates(SortByNumber(parts)) <==> NoDuplicates(parts)
  {
    if parts != [] {
      var front, last := parts[..|parts| - 1], parts[|parts| - 1];
      SortKeepsDistinct(front);
      SortSorts(front);
      InsertKeepsDistinct(last, SortByNumber(front));
      assert parts == front + [last];
      assert NoDuplicates(parts) <==> NoDuplicates(front) && forall x :: x in front ==> x.partNumber != last.partNumber;
    }
  }

  lemma {:induction false} InsertKeepsDistinct(part: PartRef, sorted: seq<PartRef>)
    ensures NoDuplicates(InsertByNumber(part, sorted)) <==>
            NoDuplicates(sorted) && forall x :: x in sorted ==> x.partNumber != part.partNumber
  {
    if sorted == [] || part.partNumber < sorted[0].partNumber {
      ConsDistinct(part, sorted);
    } else {
      var first, tail := sorted[0], sorted[1..];
      assert sorted == [first] + tail;
      InsertKeepsDistinct(part, tail);
      InsertAddsOne(part, tail);
      ConsDistinct(first, InsertByNumber(part, tail));
      ConsDistinct(first, tail);
    }
  }

  lemma ConsDistinct(part: PartRef, rest: seq<PartRef>)
    ensures NoDuplicates([part] + rest) <==> NoDuplicates(rest) && forall x :: x in rest ==> x.partNumber != part.partNumber
  {
    var all := [part] + rest;
    assert forall i :: 0 <= i < |rest| ==> all[i + 1] == rest[i];
    if NoDuplicates(all) {
      forall i, j | 0 <= i < j < |rest|
        ensures rest[i].partNumber != rest[j].partNumber
      {
        assert all[i + 1].partNumber != all[j + 1].partNumber;
      }
      forall x | x in rest
        ensures x.partNumber != part.partNumber
      {
        var i :| 0 <= i < |rest| && rest[i] == x;
        assert all[0].partNumber != all[i + 1].partNumber;
      }
    }
  }

  // ---------------------------------------------------------------------------
  // The backend
  // ---------------------------------------------------------------------------

  class LocalObjectBackend {
    const digest: Bytes -> string
    var objects: map<string, Bytes>
    var uploads: map<string, Upload>
    /** Every part that ever arrived, accepted or not. */
    ghost var arrivals: seq<Arrival>

    /** Digests are printed in lower-case hexadecimal. */
    ghost predicate PrintsLowerCase() {
      forall bytes :: Lower(digest(bytes)) == digest(bytes)
    }

    constructor (digest: Bytes -> string)
      ensures objects == map[] && uploads == map[] && arrivals == [] && this.digest == digest
    {
      this.digest := digest;
      objects, uploads, arrivals := map[], map[], [];
    }

    function HeadOf(key: string, bytes: Bytes): Head {
      Head(key, |bytes|, digest(bytes))
    }

    /** A checksum came along, and it is not that of the bytes. */
    predicate Mismatches(sha256: Option<string>, bytes: Bytes) {
      match sha256
      case None => false
      case Some(text) => text != "" && Lower(text) != digest(bytes)
    }

    predicate SameContent(a: Bytes, b: Bytes) {
      |a| == |b| && digest(a) == digest(b)
    }

    /** What `put` answers: a stored key only ever accepts bytes of the same digest and length. */
    function PutReply(key: string, bytes: Bytes, sha256: Option<string>): Result<Head, Error>
      reads this
    {
      if sha256.Some? && |sha256.value| > 0 && Lower(sha256.value) != digest(bytes) then Err(ChecksumMismatch)
      else if key in objects && (digest(objects[key]) != digest(bytes) || |objects[key]| != |bytes|) then Err(ImmutableConflict)
      else Ok(HeadOf(key, bytes))
    }

    /** Writes a new key; never changes the bytes under a key that is already there. */
    method Put(key: string, bytes: Bytes, sha256: Option<string>) returns (reply: Result<Head, Error>)
      modifies this`objects
      ensures reply == old(PutReply(key, bytes, sha256))
      ensures objects == if reply.Ok? && key !in old(objects) then old(objects)[key := bytes] else old(objects)
      ensures old(objects).Keys <= objects.Keys && forall k :: k in old(objects) ==> objects[k] == old(objects)[k]
      ensures reply == Err(ChecksumMismatch) <==> Mismatches(sha256, bytes)
      ensures reply == Err(ImmutableConflict) <==>
              !Mismatches(sha256, bytes) && key in old(objects) && !SameContent(old(objects)[key], bytes)
      ensures reply.Ok? <==> !Mismatches(sha256, bytes) && (key in old(objects) ==> SameContent(old(objects)[key], bytes))
      ensures reply.Ok? ==> key in objects && SameContent(objects[key], bytes) && reply.value == Head(key, |bytes|, digest(bytes))
    {
      if sha256.Some? && |sha256.value| > 0 && Lower(sha256.value) != digest(bytes) {
        return Err(ChecksumMismatch);
      }
      if key in objects {
        var existing := HeadOf(key, objects[key]);
        if existing.sha256 != digest(bytes) || existing.sizeBytes != |bytes| {
          return Err(ImmutableConflict);
        }
        return Ok(existing);
      }
      objects := objects[key := bytes];
      reply := Ok(HeadOf(key, bytes));
    }

    method CreateMultipart(key: string, uploadId: string) returns (reply: Result<string, Error>)
      requires uploadId !in uploads
      modifies this`uploads
      ensures reply == if key in objects then Err(KeyExists) else Ok(uploadId)
      ensures uploads == if reply.Ok? then old(uploads)[uploadId := Upload(key, map[])] else old(uploads)
    {
      if key in objects {
        return Err(KeyExists);
      }
      uploads := uploads[uploadId := Upload(key, map[])];
      reply := Ok(uploadId);
    }

    function Bound(uploadId: string, key: string): Option<Error>
      reads this
    {
      if uploadId !in uploads then Some(UploadNotFound)
      else if uploads[uploadId].key != key then Some(WrongKey)
      else None
    }

    method UploadPart(uploadId: string, key: string, partNumber: nat, bytes: Bytes, sha256: Option<string>)
      returns (reply: Result<PartRef, Error>)
      modifies this`uploads, this`arrivals
      ensures arrivals == old(arrivals) + [Arrival(uploadId, key, partNumber, bytes)]
      ensures reply.Ok? <==>
                && 1 <= partNumber <= MAX_PART_NUMBER && old(Bound(uploadId, key)) == None
                && (sha256.Some? && |sha256.value| > 0 ==> Lower(sha256.value) == digest(bytes))
                && (partNumber in old(uploads)[uploadId].parts ==> old(uploads)[uploadId].parts[partNumber] == bytes)
      ensures reply.Ok? ==> reply.value == PartRef(partNumber, digest(bytes))
      ensures reply.Ok? ==>
                uploads == old(uploads)[uploadId := Upload(key, old(uploads)[uploadId].parts[partNumber := bytes])]
      ensures reply.Err? ==> uploads == old(uploads)
      ensures reply == Err(BadPartNumber) <==> partNumber == 0 || partNumber > 10_000
      ensures reply == Err(UploadNotFound) <==> 1 <= partNumber <= 10_000 && uploadId !in old(uploads)
      ensures reply == Err(WrongKey) <==>
              1 <= partNumber <= 10_000 && uploadId in old(uploads) && old(uploads)[uploadId].key != key
      ensures reply == Err(ChecksumMismatch) <==>
              1 <= partNumber <= 10_000 && uploadId in old(uploads) && old(uploads)[uploadId].key == key && Mismatches(sha256, bytes)
      ensures reply == Err(PartConflict) <==>
              && 1 <= partNumber <= 10_000 && uploadId in old(uploads) && old(uploads)[uploadId].key == key && !Mismatches(sha256, bytes)
              && partNumber in old(uploads)[uploadId].parts && old(uploads)[uploadId].parts[partNumber] != bytes
    {
      arrivals := arrivals + [Arrival(uploadId, key, partNumber, bytes)];
      if partNumber < 1 || partNumber > MAX_PART_NUMBER {
        return Err(BadPartNumber);
      }
      if uploadId !in uploads {
        return Err(UploadNotFound);
      }
      var upload := uploads[uploadId];
      if upload.key != key {
        return Err(WrongKey);
      }
      if sha256.Some? && |sha256.value| > 0 && Lower(sha256.value) != digest(bytes) {
        return Err(ChecksumMismatch);
      }
      if partNumber in upload.parts {
        if upload.parts[partNumber] != bytes {
          return Err(PartConflict);
        }
        assert upload.parts == upload.parts[partNumber := bytes];
      }
      uploads := uploads[uploadId := Upload(key, upload.parts[partNumber := bytes])];
      reply := Ok(PartRef(partNumber, digest(bytes)));
    }

    /** Why a listed part is refused. */
    predicate RefusedFor(stored: map<nat, Bytes>, part: PartRef, error: Error) {
      match error
      case BadPartNumber => part.partNumber == 0 || part.partNumber > 10_000
      case PartMissing => 1 <= part.partNumber <= 10_000 && part.partNumber !in stored
      case EtagMismatch => 1 <= part.partNumber <= 10_000 && part.partNumber in stored && digest(stored[part.partNumber]) != StripEtag(part.etag)
      case _ => false
    }

    /** A listed part matches, or it is refused for one of three reasons. */
    lemma MatchesOrRefused(stored: map<nat, Bytes>, part: PartRef)
      ensures PartMatches(stored, part) <==>
              !RefusedFor(stored, part, BadPartNumber) && !RefusedFor(stored, part, PartMissing) && !RefusedFor(stored, part, EtagMismatch)
    {
    }

    /** The stored parts one behind the other, or the fault of the first listed part that is not what was stored. */
    method JoinParts(stored: map<nat, Bytes>, ordered: seq<PartRef>) returns (reply: Result<Bytes, Error>)
      ensures reply.Ok? ==> reply.value == Joined(stored, ordered)
      ensures reply.Ok? <==> forall j :: 0 <= j < |ordered| ==> PartMatches(stored, ordered[j])
      ensures reply.Err? ==> exists k ::
                && 0 <= k < |ordered| && RefusedFor(stored, ordered[k], reply.error)
                && forall j :: 0 <= j < k ==> PartMatches(stored, ordered[j])
    {
      var chunks: Bytes := [];
      for k := 0 to |ordered|
        invariant chunks == Joined(stored, ordered[..k])
        invariant forall j :: 0 <= j < k ==> PartMatches(stored, ordered[j])
      {
        assert ordered[..k + 1][..k] == ordered[..k];
        var part := ordered[k];
        if part.partNumber < 1 || part.partNumber > MAX_PART_NUMBER {
          assert RefusedFor(stored, ordered[k], BadPartNumber);
          return Err(BadPartNumber);
        }
        if part.partNumber !in stored {
          assert RefusedFor(stored, ordered[k], PartMissing);
          return Err(PartMissing);
        }
        if digest(stored[part.partNumber]) != StripEtag(part.etag) {
          assert RefusedFor(stored, ordered[k], EtagMismatch);
          return Err(EtagMismatch);
        }
        chunks := chunks + stored[part.partNumber];
      }
      assert ordered[..|ordered|] == ordered;
      reply := Ok(chunks);
    }

    /** Assembles the listed parts in part order and stores them under the upload's key. */
    method CompleteMultipart(uploadId: string, key: string, parts: seq<PartRef>) returns (reply: Result<Head, Error>)
      modifies this`objects, this`uploads
      ensures old(objects).Keys <= objects.Keys && forall k :: k in old(objects) ==> objects[k] == old(objects)[k]
      ensures reply.Err? ==> objects == old(objects) && uploads == old(uploads)
      ensures reply == Err(UploadNotFound) <==> uploadId !in old(uploads)
      ensures reply == Err(WrongKey) <==> uploadId in old(uploads) && old(uploads)[uploadId].key != key
      ensures reply == Err(NoParts) <==> uploadId in old(uploads) && old(uploads)[uploadId].key == key && parts == []
      ensures reply == Err(DuplicateParts) <==>
              uploadId in old(uploads) && old(uploads)[uploadId].key == key && parts != [] && !NoDuplicates(parts)
      ensures reply.Ok? <==>
                && old(Bound(uploadId, key)) == None && parts != [] && NoDuplicates(parts) && old(AllMatch(uploadId, parts))
                && old(PutReply(key, Joined(uploads[uploadId].parts, SortByNumber(parts)), None)).Ok?
      ensures reply.Ok? ==>
                && uploads == old(uploads) - {uploadId}
                && var whole := Joined(old(uploads)[uploadId].parts, SortByNumber(parts));
                   && reply.value == HeadOf(key, whole)
                   && objects == if key in old(objects) then old(objects) else old(objects)[key := whole]
    {
      if uploadId !in uploads {
        return Err(UploadNotFound);
      }
      var upload := uploads[uploadId];
      if upload.key != key {
        return Err(WrongKey);
      }
      if parts == [] {
        return Err(NoParts);
      }
      var ordered := SortByNumber(parts);
      SortSorts(parts);
      SortKeepsDistinct(parts);
      if !NoDuplicates(ordered) {
        return Err(DuplicateParts);
      }
      var joined := JoinParts(upload.parts, ordered);
      if joined.Err? {
        return Err(joined.error);
      }
      assert AllMatch(uploadId, parts) by {
        assert forall part :: part in parts ==> part in ordered;
      }
      reply := Put(key, joined.value, None);
      if reply.Ok? {
        uploads := uploads - {uploadId};
      }
    }

    /** Every listed part is stored with the listed digest. */
    ghost predicate AllMatch(uploadId: string, parts: seq<PartRef>)
      reads this
    {
      uploadId in uploads && forall part :: part in parts ==> PartMatches(uploads[uploadId].parts, part)
    }

    predicate PartMatches(stored: map<nat, Bytes>, part: PartRef) {
      && 1 <= part.partNumber <= MAX_PART_NUMBER
      && part.partNumber in stored
      && digest(stored[part.partNumber]) == StripEtag(part.etag)
    }
  }

  function Joined(parts: map<nat, Bytes>, ordered: seq<PartRef>): Bytes {
    if ordered == [] then []
    else
      var last := ordered[|ordered| - 1].partNumber;
      Joined(parts, ordered[..|ordered| - 1]) + if last in parts then parts[last] else []
  }

  lemma {:induction false} JoinedInOrder(parts: map<nat, Bytes>, ordered: seq<PartRef>)
    requires forall k :: 0 <= k < |ordered| ==> ordered[k].partNumber == k + 1
    ensures Joined(parts, ordered) == Assembled(parts, |ordered|)
  {
    if ordered != [] {
      JoinedInOrder(parts, ordered[..|ordered| - 1]);
    }
  }

  /** Whatever order the parts are listed in, what is joined is the file the slices were cut from. */
  lemma CompletionJoinsTheFile(parts: map<nat, Bytes>, listed: seq<PartRef>, file: Bytes, size: nat, n: nat)
    requires NamesEachOnce(listed, n) && HoldsSlices(parts, file, size, n) && n * size >= |file|
    ensures Joined(parts, SortByNumber(listed)) == file
  {
    SortKeepsDistinct(listed);
    SortedNamesInOrder(listed, n);
    JoinedInOrder(parts, SortByNumber(listed));
    SlicesAssemble(parts, file, size, n);
    assert file[..|file|] == file;
  }
}
