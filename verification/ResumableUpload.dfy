/**
 * The resumable client loop of apps/web/lib/resumable-upload.ts over the local backend: it sends
 * exactly the missing slices, reports exactly the bytes completed, and what completion then
 * stores, whatever order the parts are listed in, is the file.
 */
module ResumableUpload {
  import opened Prelude
  import opened Multipart

  /** One attempt at a part: lost on the way, stored but never confirmed, or confirmed. */
  datatype Delivery = Dropped | Unconfirmed | Confirmed

  /** A report: the bytes uploaded, and the parts completed, of which it shows the number. */
  datatype Progress = Progress(uploadedBytes: int, completed: set<nat>) {
    function CompletedParts(): nat { |completed| }
  }

  /** The bytes of the parts in `done` among the first `n`. */
  function BytesOf(file: Bytes, size: nat, n: nat, done: set<nat>): nat {
    if n == 0 then 0 else BytesOf(file, size, n - 1, done) + if n in done then |Slice(file, size, n)| else 0
  }

  lemma {:induction false} BytesOfGrows(file: Bytes, size: nat, n: nat, done: set<nat>, k: nat)
    requires 1 <= k && k !in done
    ensures BytesOf(file, size, n, done + {k}) == BytesOf(file, size, n, done) + if k <= n then |Slice(file, size, k)| else 0
  {
    if n > 0 {
      BytesOfGrows(file, size, n - 1, done, k);
    }
  }

  lemma {:induction false} BytesOfAll(file: Bytes, size: nat, n: nat, done: set<nat>)
    requires forall k :: 1 <= k <= n ==> k in done
    ensures BytesOf(file, size, n, done) == Min(|file|, n * size)
  {
    if n > 0 {
      BytesOfAll(file, size, n - 1, done);
      assert (n - 1) * size <= n * size;
    }
  }

  /** The parts still missing, in ascending order. */
  function Missing(n: nat, done: set<nat>): seq<nat> {
    if n == 0 then [] else Missing(n - 1, done) + if n in done then [] else [n]
  }

  function PartsOf(backend: LocalObjectBackend, uploadId: string): map<nat, Bytes>
    reads backend
  {
    if uploadId in backend.uploads then backend.uploads[uploadId].parts else map[]
  }

  predicate ValidNumber(k: nat) {
    1 <= k <= MAX_PART_NUMBER
  }

  /** How many attempts arrive at the backend: all that are not lost, up to the first one confirmed. */
  function Calls(k: nat, deliveries: seq<Delivery>): nat {
    if |deliveries| == 0 then 0
    else
      var front, last := deliveries[..|deliveries| - 1], deliveries[|deliveries| - 1];
      Calls(k, front) + if last == Dropped || (ValidNumber(k) && Confirmed in front) then 0 else 1
  }

  lemma {:induction false} NoCallsAfterConfirmed(k: nat, deliveries: seq<Delivery>, j: nat)
    requires j <= |deliveries| && ValidNumber(k) && Confirmed in deliveries[..j]
    ensures Calls(k, deliveries) == Calls(k, deliveries[..j])
  {
    if j == |deliveries| {
      assert deliveries[..j] == deliveries;
    } else {
      var front := deliveries[..|deliveries| - 1];
      assert front[..j] == deliveries[..j];
      assert forall x :: x in front[..j] ==> x in front;
      NoCallsAfterConfirmed(k, front, j);
    }
  }

  /** Some attempt at the part is stored. */
  predicate Reaches(k: nat, deliveries: seq<Delivery>) {
    ValidNumber(k) && Calls(k, deliveries) > 0
  }

  /** The attempts that get through to the backend. */
  function GotThrough(deliveries: seq<Delivery>): nat {
    if |deliveries| == 0 then 0
    else GotThrough(deliveries[..|deliveries| - 1]) + if deliveries[|deliveries| - 1] == Dropped then 0 else 1
  }

  lemma {:induction false} UnconfirmedCalls(k: nat, deliveries: seq<Delivery>)
    requires Confirmed !in deliveries
    ensures Calls(k, deliveries) == GotThrough(deliveries)
  {
    if |deliveries| > 0 {
      UnconfirmedCalls(k, deliveries[..|deliveries| - 1]);
    }
  }

  /** The attempts stop with the first one confirmed: what arrives are those up to it that get through. */
  lemma CallsStopAtConfirmed(k: nat, deliveries: seq<Delivery>, j: nat)
    requires 1 <= k <= 10_000 && j < |deliveries| && deliveries[j] == Confirmed && Confirmed !in deliveries[..j]
    ensures Calls(k, deliveries) == GotThrough(deliveries[..j]) + 1
  {
    assert deliveries[..j + 1][..j] == deliveries[..j];
    assert deliveries[..j + 1][j] == Confirmed;
    UnconfirmedCalls(k, deliveries[..j]);
    NoCallsAfterConfirmed(k, deliveries, j + 1);
  }

  lemma {:induction false} SomeCallIff(k: nat, deliveries: seq<Delivery>)
    ensures Calls(k, deliveries) > 0 <==> exists j :: 0 <= j < |deliveries| && deliveries[j] != Dropped
  {
    if |deliveries| > 0 {
      var front := deliveries[..|deliveries| - 1];
      SomeCallIff(k, front);
      assert forall j :: 0 <= j < |front| ==> front[j] == deliveries[j];
      if Confirmed in front {
        var j :| 0 <= j < |front| && front[j] == Confirmed;
        assert front[j] != Dropped;
      }
    }
  }

  /** A part gets stored exactly when its number is one of 1 to 10000 and some attempt gets through. */
  lemma ReachesIffThrough(k: nat, deliveries: seq<Delivery>)
    ensures Reaches(k, deliveries) <==>
            1 <= k <= 10_000 && exists j :: 0 <= j < |deliveries| && deliveries[j] != Dropped
  {
    SomeCallIff(k, deliveries);
  }

  /** All uploads but this one. */
  function Others(uploads: map<string, Upload>, uploadId: string): map<string, Upload> {
    uploads - {uploadId}
  }

  function Repeated(arrival: Arrival, count: nat): seq<Arrival> {
    if count == 0 then [] else Repeated(arrival, count - 1) + [arrival]
  }

  /** One upload gains one part; no other upload changes. */
  function WithPart(uploads: map<string, Upload>, uploadId: string, k: nat, part: Bytes): map<string, Upload>
    requires uploadId in uploads
  {
    uploads[uploadId := Upload(uploads[uploadId].key, uploads[uploadId].parts[k := part])]
  }

  lemma WithPartTwice(uploads: map<string, Upload>, uploadId: string, k: nat, part: Bytes)
    requires uploadId in uploads
    ensures WithPart(WithPart(uploads, uploadId, k, part), uploadId, k, part) == WithPart(uploads, uploadId, k, part)
  {
    var once := WithPart(uploads, uploadId, k, part)[uploadId].parts;
    var twice: map<nat, Bytes> := once[k := part];
    assert twice == once;
  }

  /** The retry loop of one part. */
  method UploadPart(backend: LocalObjectBackend, uploadId: string, key: string, k: nat, part: Bytes, deliveries: seq<Delivery>)
    returns (ok: bool)
    requires backend.PrintsLowerCase() && backend.Bound(uploadId, key) == None
    requires k in PartsOf(backend, uploadId) ==> PartsOf(backend, uploadId)[k] == part
    modifies backend`uploads, backend`arrivals
    ensures ok <==> 1 <= k <= 10_000 && Confirmed in deliveries
    ensures backend.uploads ==
            if Reaches(k, deliveries) then WithPart(old(backend.uploads), uploadId, k, part) else old(backend.uploads)
    ensures backend.arrivals == old(backend.arrivals) + Repeated(Arrival(uploadId, key, k, part), Calls(k, deliveries))
  {
    ghost var calls := 0;
    ok := false;
    for attempt := 0 to |deliveries|
      invariant backend.uploads ==
                if ValidNumber(k) && calls > 0 then WithPart(old(backend.uploads), uploadId, k, part) else old(backend.uploads)
      invariant backend.arrivals == old(backend.arrivals) + Repeated(Arrival(uploadId, key, k, part), calls)
      invariant calls == Calls(k, deliveries[..attempt])
      invariant ValidNumber(k) ==> Confirmed !in deliveries[..attempt]
    {
      assert deliveries[..attempt + 1][..attempt] == deliveries[..attempt];
      if deliveries[attempt] != Dropped {
        ghost var before := backend.uploads;
        WithPartTwice(old(backend.uploads), uploadId, k, part);
        var reply := backend.UploadPart(uploadId, key, k, part, Some(backend.digest(part)));
        assert ValidNumber(k) ==> backend.uploads == WithPart(before, uploadId, k, part);
        calls := calls + 1;
        if reply.Ok? && deliveries[attempt] == Confirmed {
          assert deliveries[..attempt + 1][attempt] == Confirmed;
          NoCallsAfterConfirmed(k, deliveries, attempt + 1);
          return true;
        }
      }
      assert deliveries[..attempt + 1] == deliveries[..attempt] + [deliveries[attempt]];
    }
    assert deliveries[..|deliveries|] == deliveries;
  }

  /** Whatever is stored of the file's parts is the right slice. */
  predicate OnlySlices(parts: map<nat, Bytes>, file: Bytes, size: nat, n: nat) {
    forall k :: 1 <= k <= n ==> SliceOrNothing(parts, file, size, k)
  }

  predicate SliceOrNothing(parts: map<nat, Bytes>, file: Bytes, size: nat, k: nat) {
    k >= 1 && (k in parts ==> parts[k] == Slice(file, size, k))
  }

  method CutPart(file: Bytes, size: nat, k: nat) returns (part: Bytes)
    requires k >= 1
    ensures part == Slice(file, size, k)
  {
    var start := (k - 1) * size;
    SliceIsRange(file, size, k);
    assert start + size == k * size;
    part := file[Min(|file|, start)..Min(|file|, start + size)];
  }

  /** The parts done once those of `sent` have been sent. */
  function DoneAfter(completed: set<nat>, sent: seq<nat>): set<nat> {
    if |sent| == 0 then completed else DoneAfter(completed, sent[..|sent| - 1]) + {sent[|sent| - 1]}
  }

  function Report(file: Bytes, size: nat, n: nat, done: set<nat>): Progress {
    Progress(BytesOf(file, size, n, done), done)
  }

  /** The reports due: one at the start and one behind every part sent. */
  function Reports(file: Bytes, size: nat, n: nat, completed: set<nat>, sent: seq<nat>): (reports: seq<Progress>)
    ensures |reports| == |sent| + 1
  {
    (if |sent| == 0 then [] else Reports(file, size, n, completed, sent[..|sent| - 1])) +
    [Report(file, size, n, DoneAfter(completed, sent))]
  }

  lemma {:induction false} DoneAfterIsUnion(completed: set<nat>, sent: seq<nat>)
    ensures DoneAfter(completed, sent) == completed + set k | k in sent
  {
    if |sent| > 0 {
      var front, last := sent[..|sent| - 1], sent[|sent| - 1];
      DoneAfterIsUnion(completed, front);
      assert sent == front + [last];
    }
  }

  /** The `j`-th report shows exactly the parts done and the bytes in them after `j` parts. */
  lemma {:induction false} ReportsAreHonest(file: Bytes, size: nat, n: nat, completed: set<nat>, sent: seq<nat>, j: nat)
    requires j <= |sent|
    ensures Reports(file, size, n, completed, sent)[j] == Report(file, size, n, completed + set k | k in sent[..j])
    ensures Reports(file, size, n, completed, sent)[j].CompletedParts() == |completed + set k | k in sent[..j]|
  {
    if j == |sent| {
      assert sent[..j] == sent;
      DoneAfterIsUnion(completed, sent);
    } else {
      var front := sent[..|sent| - 1];
      ReportsAreHonest(file, size, n, completed, front, j);
      assert front[..j] == sent[..j];
    }
  }

  /** Whatever is stored of the file's parts is the right slice, and every part done is stored. */
  predicate Backed(parts: map<nat, Bytes>, file: Bytes, size: nat, n: nat, done: set<nat>) {
    && OnlySlices(parts, file, size, n)
    && forall x :: x in done ==> x in parts
  }

  lemma SlicesGrow(parts: map<nat, Bytes>, file: Bytes, size: nat, n: nat, k: nat)
    requires OnlySlices(parts, file, size, n) && k >= 1
    ensures OnlySlices(parts[k := Slice(file, size, k)], file, size, n)
  {
    var after := parts[k := Slice(file, size, k)];
    forall x: nat | 1 <= x <= n
      ensures SliceOrNothing(after, file, size, x)
    {
      assert SliceOrNothing(parts, file, size, x);
    }
  }

  lemma BackedGrows(parts: map<nat, Bytes>, file: Bytes, size: nat, n: nat, done: set<nat>, k: nat)
    requires Backed(parts, file, size, n, done) && k >= 1
    ensures Backed(parts[k := Slice(file, size, k)], file, size, n, done)
    ensures Backed(parts[k := Slice(file, size, k)], file, size, n, done + {k})
  {
    SlicesGrow(parts, file, size, n, k);
  }

  // ---------------------------------------------------------------------------
  // The part loop
  // ---------------------------------------------------------------------------

  /** What the loop is given; `deliveries` has the attempts at each part. */
  datatype Plan = Plan(uploadId: string, key: string, file: Bytes, size: nat, completed: set<nat>, deliveries: seq<seq<Delivery>>)

  /**
   * Where the loop stands before part `at`: what is done, counted, sent and reported, which parts
   * the backend stores, and what has arrived there since the beginning.
   */
  datatype Standing = Standing(
    at: nat, done: set<nat>, uploadedBytes: int, sent: seq<nat>, progress: seq<Progress>, parts: map<nat, Bytes>, arrived: seq<Arrival>)

  /** Part numbers of a file cut into `n` parts. */
  predicate InRange(numbers: seq<nat>, n: nat) {
    forall i :: 0 <= i < |numbers| ==> 1 <= numbers[i] <= n
  }

  /** What arrives when part `k` is sent: its slice, once for every attempt that gets through. */
  function Arrivals(plan: Plan, k: nat): seq<Arrival>
    requires 1 <= k <= |plan.deliveries|
  {
    Repeated(Arrival(plan.uploadId, plan.key, k, Slice(plan.file, plan.size, k)), Calls(k, plan.deliveries[k - 1]))
  }

  /** What arrives when the parts of `tried` are sent one behind the other. */
  function Sends(plan: Plan, tried: seq<nat>): seq<Arrival>
    requires InRange(tried, |plan.deliveries|)
  {
    if |tried| == 0 then [] else Sends(plan, tried[..|tried| - 1]) + Arrivals(plan, tried[|tried| - 1])
  }

  function PartStored(parts: map<nat, Bytes>, file: Bytes, size: nat, k: nat, deliveries: seq<Delivery>): map<nat, Bytes>
    requires k >= 1
  {
    if Reaches(k, deliveries) then parts[k := Slice(file, size, k)] else parts
  }

  /** Part `x` is stored as it was before, or is its slice, sent among `tried`, or is not stored. */
  ghost predicate GainedAt(plan: Plan, before: map<nat, Bytes>, after: map<nat, Bytes>, tried: seq<nat>, x: nat)
    requires InRange(tried, |plan.deliveries|)
  {
    if x in before then x in after && after[x] == before[x]
    else if x in tried && Reaches(x, plan.deliveries[x - 1]) then x in after && after[x] == Slice(plan.file, plan.size, x)
    else x !in after
  }

  /** What was stored is stored as it was, and beside it exactly the slices of `tried` that reached the backend. */
  ghost predicate Gained(plan: Plan, before: map<nat, Bytes>, after: map<nat, Bytes>, tried: seq<nat>)
    requires InRange(tried, |plan.deliveries|)
  {
    forall x :: GainedAt(plan, before, after, tried, x)
  }

  /** The parts sent are those missing below `at`, and what is done, counted and reported are theirs. */
  ghost predicate AtPart(file: Bytes, size: nat, n: nat, completed: set<nat>, at: nat, done: set<nat>, uploadedBytes: int, sent: seq<nat>,
                         progress: seq<Progress>)
  {
    && 1 <= at <= n + 1
    && sent == Missing(at - 1, completed)
    && done == DoneAfter(completed, sent)
    && uploadedBytes == BytesOf(file, size, n, done)
    && progress == Reports(file, size, n, completed, sent)
  }

  ghost predicate Counted(plan: Plan, s: Standing) {
    match s
    case Standing(at, done, uploadedBytes, sent, progress, _, _) =>
      AtPart(plan.file, plan.size, |plan.deliveries|, plan.completed, at, done, uploadedBytes, sent, progress)
  }

  /** Nothing but the parts of `tried` has arrived, and what of them is stored was not before. */
  ghost predicate Ships(plan: Plan, before: map<nat, Bytes>, done: set<nat>, parts: map<nat, Bytes>, arrived: seq<Arrival>, tried: seq<nat>) {
    && InRange(tried, |plan.deliveries|)
    && Backed(parts, plan.file, plan.size, |plan.deliveries|, done)
    && arrived == Sends(plan, tried)
    && Gained(plan, before, parts, tried)
  }

  ghost predicate Shipped(plan: Plan, before: map<nat, Bytes>, s: Standing, tried: seq<nat>) {
    match s
    case Standing(_, done, _, _, _, parts, arrived) => Ships(plan, before, done, parts, arrived, tried)
  }

  predicate IsConfirmed(plan: Plan, k: nat) {
    1 <= k <= |plan.deliveries| && ValidNumber(k) && Confirmed in plan.deliveries[k - 1]
  }

  predicate AllConfirmed(plan: Plan, sent: seq<nat>) {
    forall i :: 0 <= i < |sent| ==> IsConfirmed(plan, sent[i])
  }

  /** Every part sent so far was confirmed. */
  ghost predicate Along(plan: Plan, before: map<nat, Bytes>, s: Standing) {
    match s
    case Standing(_, _, _, sent, _, _, _) =>
      Counted(plan, s) && Shipped(plan, before, s, sent) && AllConfirmed(plan, sent)
  }

  /**
   * The loop is over: `tried` are the parts sent and behind them the one that failed, if any; no
   * attempt at that one was confirmed.
   */
  ghost predicate Stopped(plan: Plan, before: map<nat, Bytes>, s: Standing, tried: seq<nat>) {
    match s
    case Standing(at, _, _, sent, _, _, _) =>
      && Counted(plan, s) && Shipped(plan, before, s, tried)
      && AllConfirmed(plan, sent)
      && (at <= |plan.deliveries| ==> at !in plan.completed && !IsConfirmed(plan, at))
      && tried == Missing(Min(at, |plan.deliveries|), plan.completed)
  }

  function AfterSkip(s: Standing): Standing {
    s.(at := s.at + 1)
  }

  function AfterSend(plan: Plan, s: Standing): Standing
    requires 1 <= s.at <= |plan.deliveries|
  {
    var done, bytes := s.done + {s.at}, s.uploadedBytes + |Slice(plan.file, plan.size, s.at)|;
    Standing(s.at + 1, done, bytes, s.sent + [s.at], s.progress + [Progress(bytes, done)],
             PartStored(s.parts, plan.file, plan.size, s.at, plan.deliveries[s.at - 1]), s.arrived + Arrivals(plan, s.at))
  }

  function AfterFailure(plan: Plan, s: Standing): Standing
    requires 1 <= s.at <= |plan.deliveries|
  {
    s.(parts := PartStored(s.parts, plan.file, plan.size, s.at, plan.deliveries[s.at - 1]), arrived := s.arrived + Arrivals(plan, s.at))
  }

  function Start(plan: Plan, before: map<nat, Bytes>, bytes: int): Standing {
    Standing(1, plan.completed, bytes, [], [Progress(bytes, plan.completed)], before, [])
  }

  /** The loop from part `at` on. */
  function Finish(plan: Plan, s: Standing): Standing
    decreases |plan.deliveries| + 1 - s.at
  {
    if s.at < 1 || s.at > |plan.deliveries| then s
    else if s.at in s.done then Finish(plan, AfterSkip(s))
    else if IsConfirmed(plan, s.at) then Finish(plan, AfterSend(plan, s))
    else AfterFailure(plan, s)
  }

  /** The parts sent, and behind them the one that failed, if any. */
  function Tried(plan: Plan, s: Standing): seq<nat> {
    if s.at == |plan.deliveries| + 1 then s.sent else s.sent + [s.at]
  }

  lemma DoneBefore(completed: set<nat>, k: nat, x: nat)
    requires k >= 1
    ensures x in DoneAfter(completed, Missing(k - 1, completed)) <==> x in completed || 1 <= x < k
  {
    DoneAfterIsUnion(completed, Missing(k - 1, completed));
    MissingIsExact(k - 1, completed);
  }

  lemma PartSkipped(file: Bytes, size: nat, n: nat, completed: set<nat>, k: nat, done: set<nat>, uploadedBytes: int, sent: seq<nat>,
                    progress: seq<Progress>)
    requires AtPart(file, size, n, completed, k, done, uploadedBytes, sent, progress) && k <= n && k in done
    ensures AtPart(file, size, n, completed, k + 1, done, uploadedBytes, sent, progress)
  {
    DoneBefore(completed, k, k);
  }

  lemma PartSent(file: Bytes, size: nat, n: nat, completed: set<nat>, k: nat, done: set<nat>, uploadedBytes: int, sent: seq<nat>,
                 progress: seq<Progress>)
    requires AtPart(file, size, n, completed, k, done, uploadedBytes, sent, progress) && k <= n && k !in done
    ensures var bytes := uploadedBytes + |Slice(file, size, k)|;
            AtPart(file, size, n, completed, k + 1, done + {k}, bytes, sent + [k], progress + [Progress(bytes, done + {k})])
  {
    DoneBefore(completed, k, k);
    BytesOfGrows(file, size, n, done, k);
    assert (sent + [k])[..|sent|] == sent;
  }

  /** The parts sent, and behind them the one that failed. */
  lemma PartFailed(file: Bytes, size: nat, n: nat, completed: set<nat>, k: nat, done: set<nat>, uploadedBytes: int, sent: seq<nat>,
                   progress: seq<Progress>)
    requires AtPart(file, size, n, completed, k, done, uploadedBytes, sent, progress) && k !in done
    ensures k !in completed && sent + [k] == Missing(k, completed)
  {
    DoneBefore(completed, k, k);
  }

  lemma {:induction false} ConfirmedIsCalled(k: nat, deliveries: seq<Delivery>)
    requires Confirmed in deliveries
    ensures Calls(k, deliveries) > 0
  {
    var front := deliveries[..|deliveries| - 1];
    assert deliveries == front + [deliveries[|front|]];
    if Confirmed in front {
      ConfirmedIsCalled(k, front);
    }
  }

  lemma GainOne(plan: Plan, before: map<nat, Bytes>, parts: map<nat, Bytes>, tried: seq<nat>, k: nat)
    requires InRange(tried, |plan.deliveries|) && Gained(plan, before, parts, tried) && 1 <= k <= |plan.deliveries|
    requires SliceOrNothing(parts, plan.file, plan.size, k)
    ensures Gained(plan, before, PartStored(parts, plan.file, plan.size, k, plan.deliveries[k - 1]), tried + [k])
  {
    var after, more := PartStored(parts, plan.file, plan.size, k, plan.deliveries[k - 1]), tried + [k];
    assert GainedAt(plan, before, parts, tried, k);
    forall x: nat
      ensures GainedAt(plan, before, after, more, x)
    {
      assert GainedAt(plan, before, parts, tried, x);
      assert x in more <==> x in tried || x == k;
    }
  }

  lemma ConfirmedNext(plan: Plan, sent: seq<nat>, k: nat)
    requires AllConfirmed(plan, sent) && IsConfirmed(plan, k)
    ensures AllConfirmed(plan, sent + [k])
  {
  }

  lemma SendsOneMore(plan: Plan, tried: seq<nat>, k: nat)
    requires InRange(tried, |plan.deliveries|) && 1 <= k <= |plan.deliveries|
    ensures InRange(tried + [k], |plan.deliveries|) && Sends(plan, tried + [k]) == Sends(plan, tried) + Arrivals(plan, k)
  {
    assert (tried + [k])[..|tried|] == tried;
  }

  lemma BackedByPart(plan: Plan, parts: map<nat, Bytes>, done: set<nat>, k: nat)
    requires Backed(parts, plan.file, plan.size, |plan.deliveries|, done) && 1 <= k <= |plan.deliveries|
    ensures var after := PartStored(parts, plan.file, plan.size, k, plan.deliveries[k - 1]);
            && Backed(after, plan.file, plan.size, |plan.deliveries|, done)
            && (IsConfirmed(plan, k) ==> Backed(after, plan.file, plan.size, |plan.deliveries|, done + {k}))
  {
    BackedGrows(parts, plan.file, plan.size, |plan.deliveries|, done, k);
    if IsConfirmed(plan, k) {
      ConfirmedIsCalled(k, plan.deliveries[k - 1]);
    }
  }

  lemma ShipOne(plan: Plan, before: map<nat, Bytes>, done: set<nat>, parts: map<nat, Bytes>, arrived: seq<Arrival>, tried: seq<nat>, k: nat)
    requires Ships(plan, before, done, parts, arrived, tried) && 1 <= k <= |plan.deliveries|
    ensures var after, more := PartStored(parts, plan.file, plan.size, k, plan.deliveries[k - 1]), arrived + Arrivals(plan, k);
            && Ships(plan, before, done, after, more, tried + [k])
            && (IsConfirmed(plan, k) ==> Ships(plan, before, done + {k}, after, more, tried + [k]))
  {
    SendsOneMore(plan, tried, k);
    BackedByPart(plan, parts, done, k);
    GainOne(plan, before, parts, tried, k);
  }

  lemma FailureShips(plan: Plan, before: map<nat, Bytes>, s: Standing, tried: seq<nat>)
    requires Shipped(plan, before, s, tried) && 1 <= s.at <= |plan.deliveries|
    ensures Shipped(plan, before, AfterFailure(plan, s), tried + [s.at])
  {
    ShipOne(plan, before, s.done, s.parts, s.arrived, tried, s.at);
  }

  lemma SendShips(plan: Plan, before: map<nat, Bytes>, s: Standing, tried: seq<nat>)
    requires Shipped(plan, before, s, tried) && IsConfirmed(plan, s.at)
    ensures Shipped(plan, before, AfterSend(plan, s), tried + [s.at])
  {
    ShipOne(plan, before, s.done, s.parts, s.arrived, tried, s.at);
  }

  lemma Associative(a: seq<Arrival>, b: seq<Arrival>, c: seq<Arrival>)
    ensures a + b + c == a + (b + c)
  {
  }

  lemma StartsAlong(plan: Plan, before: map<nat, Bytes>, bytes: int)
    requires Backed(before, plan.file, plan.size, |plan.deliveries|, plan.completed)
    requires bytes == BytesOf(plan.file, plan.size, |plan.deliveries|, plan.completed)
    ensures Along(plan, before, Start(plan, before, bytes))
  {
  }

  lemma SkipsAlong(plan: Plan, before: map<nat, Bytes>, s: Standing)
    requires Along(plan, before, s) && s.at <= |plan.deliveries| && s.at in s.done
    ensures Along(plan, before, AfterSkip(s))
  {
    PartSkipped(plan.file, plan.size, |plan.deliveries|, plan.completed, s.at, s.done, s.uploadedBytes, s.sent, s.progress);
  }

  lemma SendCounts(plan: Plan, s: Standing)
    requires Counted(plan, s) && s.at <= |plan.deliveries| && s.at !in s.done
    ensures Counted(plan, AfterSend(plan, s))
  {
    PartSent(plan.file, plan.size, |plan.deliveries|, plan.completed, s.at, s.done, s.uploadedBytes, s.sent, s.progress);
  }

  lemma SendsAlong(plan: Plan, before: map<nat, Bytes>, s: Standing)
    requires Along(plan, before, s) && s.at !in s.done && IsConfirmed(plan, s.at)
    ensures Along(plan, before, AfterSend(plan, s))
  {
    SendCounts(plan, s);
    SendShips(plan, before, s, s.sent);
    ConfirmedNext(plan, s.sent, s.at);
  }

  lemma FailureStops(plan: Plan, before: map<nat, Bytes>, s: Standing)
    requires Along(plan, before, s) && s.at <= |plan.deliveries| && s.at !in s.done && !IsConfirmed(plan, s.at)
    ensures Stopped(plan, before, AfterFailure(plan, s), s.sent + [s.at])
  {
    PartFailed(plan.file, plan.size, |plan.deliveries|, plan.completed, s.at, s.done, s.uploadedBytes, s.sent, s.progress);
    FailureShips(plan, before, s, s.sent);
  }

  /** However the attempts turn out, the loop sends the missing parts in order up to the first one that is never confirmed. */
  lemma {:induction false} FinishStops(plan: Plan, before: map<nat, Bytes>, s: Standing)
    requires Along(plan, before, s)
    ensures Stopped(plan, before, Finish(plan, s), Tried(plan, Finish(plan, s)))
    decreases |plan.deliveries| + 1 - s.at
  {
    if s.at > |plan.deliveries| {
      assert Finish(plan, s) == s;
    } else if s.at in s.done {
      SkipsAlong(plan, before, s);
      FinishStops(plan, before, AfterSkip(s));
    } else if IsConfirmed(plan, s.at) {
      SendsAlong(plan, before, s);
      FinishStops(plan, before, AfterSend(plan, s));
    } else {
      FailureStops(plan, before, s);
    }
  }

  /** Cuts part `k` out of the file and sends it. */
  method SendPart(backend: LocalObjectBackend, uploadId: string, key: string, file: Bytes, size: nat, k: nat, deliveries: seq<Delivery>)
    returns (ok: bool, sizeBytes: nat)
    requires backend.PrintsLowerCase() && backend.Bound(uploadId, key) == None
    requires SliceOrNothing(PartsOf(backend, uploadId), file, size, k)
    modifies backend`uploads, backend`arrivals
    ensures sizeBytes == |Slice(file, size, k)| && (ok <==> ValidNumber(k) && Confirmed in deliveries)
    ensures backend.Bound(uploadId, key) == None && Others(backend.uploads, uploadId) == old(Others(backend.uploads, uploadId))
    ensures PartsOf(backend, uploadId) == PartStored(old(PartsOf(backend, uploadId)), file, size, k, deliveries)
    ensures backend.arrivals ==
            old(backend.arrivals) + Repeated(Arrival(uploadId, key, k, Slice(file, size, k)), Calls(k, deliveries))
  {
    var part := CutPart(file, size, k);
    sizeBytes := |part|;
    ok := UploadPart(backend, uploadId, key, k, part, deliveries);
  }

  /** The part loop; what it leaves behind is `Finish`, of which `LoopSendsMissing` says what it is. */
  method SendEach(backend: LocalObjectBackend, uploadId: string, key: string, file: Bytes, size: nat, partCount: nat,
                  completed: set<nat>, completedBytes: nat, deliveries: seq<seq<Delivery>>)
    returns (ok: bool, at: nat, done: set<nat>, uploadedBytes: int, sent: seq<nat>, progress: seq<Progress>,
             ghost arrived: seq<Arrival>)
    requires backend.PrintsLowerCase() && backend.Bound(uploadId, key) == None && |deliveries| == partCount
    requires Backed(PartsOf(backend, uploadId), file, size, partCount, completed)
    requires completedBytes == BytesOf(file, size, partCount, completed)
    modifies backend`uploads, backend`arrivals
    ensures backend.Bound(uploadId, key) == None && Others(backend.uploads, uploadId) == old(Others(backend.uploads, uploadId))
    ensures backend.arrivals == old(backend.arrivals) + arrived
    ensures Standing(at, done, uploadedBytes, sent, progress, PartsOf(backend, uploadId), arrived) ==
            Finish(Plan(uploadId, key, file, size, completed, deliveries),
                   Start(Plan(uploadId, key, file, size, completed, deliveries), old(PartsOf(backend, uploadId)), completedBytes))
    ensures ok <==> at == partCount + 1
  {
    done := completed;
    uploadedBytes := completedBytes;
    sent := [];
    progress := [Progress(uploadedBytes, done)];
    at := 1;
    arrived := [];
    ghost var plan, first := Plan(uploadId, key, file, size, completed, deliveries), backend.arrivals;
    ghost var start := Start(plan, PartsOf(backend, uploadId), completedBytes);
    ghost var standing := start;
    while at <= partCount
      invariant backend.Bound(uploadId, key) == None && Others(backend.uploads, uploadId) == old(Others(backend.uploads, uploadId))
      invariant backend.arrivals == first + arrived && OnlySlices(PartsOf(backend, uploadId), file, size, partCount)
      invariant standing == Standing(at, done, uploadedBytes, sent, progress, PartsOf(backend, uploadId), arrived)
      invariant 1 <= at <= partCount + 1 && Finish(plan, standing) == Finish(plan, start)
    {
      if at in done {
        standing := AfterSkip(standing);
      } else {
        SlicesGrow(PartsOf(backend, uploadId), file, size, partCount, at);
        var stored, sizeBytes := SendPart(backend, uploadId, key, file, size, at, deliveries[at - 1]);
        Associative(first, arrived, Arrivals(plan, at));
        arrived := arrived + Arrivals(plan, at);
        if !stored {
          ok := false;
          return;
        }
        standing := AfterSend(plan, standing);
        done := done + {at};
        uploadedBytes := uploadedBytes + sizeBytes;
        sent := sent + [at];
        progress := progress + [Progress(uploadedBytes, done)];
      }
      at := at + 1;
    }
    ok := true;
  }

  lemma {:induction false} MissingPrefix(k: nat, n: nat, done: set<nat>)
    requires k <= n
    ensures Missing(k, done) <= Missing(n, done)
  {
    if k < n {
      MissingPrefix(k, n - 1, done);
    }
  }

  /** What `Missing` lists: each absent part number of the range once, ascending. */
  lemma {:induction false} MissingIsExact(n: nat, done: set<nat>)
    ensures forall k :: k in Missing(n, done) <==> 1 <= k <= n && k !in done
    ensures forall i, j :: 0 <= i < j < |Missing(n, done)| ==> Missing(n, done)[i] < Missing(n, done)[j]
  {
    if n > 0 {
      MissingIsExact(n - 1, done);
      var front := Missing(n - 1, done);
      assert forall i :: 0 <= i < |front| ==> front[i] in front;
    }
  }

  /** How many parts a file is cut into: its length over the part size, rounded up. */
  function PartCount(length: nat, size: nat): nat
    requires size >= 1
  {
    (length + size - 1) / size
  }

  lemma PartsCoverFile(length: nat, size: nat)
    requires size >= 1
    ensures PartCount(length, size) * size >= length
  {
    var x := length + size - 1;
    assert x == x / size * size + x % size;
  }

  /** The list names each part of the file once, in any order, with the digest of its slice. */
  ghost predicate ListsSlices(backend: LocalObjectBackend, listed: seq<PartRef>, file: Bytes, size: nat) {
    NamesEachOnce(listed, |listed|) &&
    forall i :: 0 <= i < |listed| ==> StripEtag(listed[i].etag) == backend.digest(Slice(file, size, listed[i].partNumber))
  }

  /**
   * End to end: after a successful upload with the rounded-up part count, completing with the
   * parts listed in any order stores exactly the file, and no later put changes it.
   */
  method UploadThenComplete(backend: LocalObjectBackend, uploadId: string, key: string, file: Bytes, size: nat, listed: seq<PartRef>,
                            later: Bytes)
    returns (head: Result<Head, Error>)
    requires size >= 1 && file != [] && |listed| == PartCount(|file|, size) <= MAX_PART_NUMBER
    requires backend.PrintsLowerCase() && backend.Bound(uploadId, key) == None && key !in backend.objects
    requires HoldsSlices(PartsOf(backend, uploadId), file, size, |listed|) && ListsSlices(backend, listed, file, size)
    modifies backend
    ensures head == Ok(Head(key, |file|, backend.digest(file)))
    ensures backend.objects == old(backend.objects)[key := file] && backend.uploads == old(Others(backend.uploads, uploadId))
    ensures backend.arrivals == old(backend.arrivals)
  {
    var n := |listed|;
    PartsCoverFile(|file|, size);
    CompletionJoinsTheFile(PartsOf(backend, uploadId), listed, file, size, n);
    head := backend.CompleteMultipart(uploadId, key, listed);
    var again := backend.Put(key, later, None);
  }

  /** Every part that was missing has an attempt that is confirmed. */
  ghost predicate EachConfirmed(plan: Plan) {
    forall k: nat :: 1 <= k <= |plan.deliveries| && k !in plan.completed ==> IsConfirmed(plan, k)
  }

  lemma SentMeansConfirmed(plan: Plan)
    requires AllConfirmed(plan, Missing(|plan.deliveries|, plan.completed))
    ensures EachConfirmed(plan)
  {
    var sent := Missing(|plan.deliveries|, plan.completed);
    MissingIsExact(|plan.deliveries|, plan.completed);
    forall k: nat | 1 <= k <= |plan.deliveries| && k !in plan.completed
      ensures IsConfirmed(plan, k)
    {
      assert k in sent;
    }
  }

  /** The loop gets to its end exactly if every missing part is confirmed. */
  lemma EndsIffConfirmed(plan: Plan, at: nat, sent: seq<nat>)
    requires 1 <= at <= |plan.deliveries| + 1 && sent == Missing(at - 1, plan.completed) && AllConfirmed(plan, sent)
    requires at <= |plan.deliveries| ==> at !in plan.completed && !IsConfirmed(plan, at)
    ensures at == |plan.deliveries| + 1 <==> EachConfirmed(plan)
  {
    if at == |plan.deliveries| + 1 {
      SentMeansConfirmed(plan);
    }
  }

  /** All of `missing` was sent, or its parts up to one that failed. */
  predicate SendsInOrder(missing: seq<nat>, sent: seq<nat>, tried: seq<nat>, ok: bool) {
    if ok then sent == tried == missing else sent < tried <= missing && |tried| == |sent| + 1
  }

  lemma TriedInOrder(n: nat, completed: set<nat>, at: nat, sent: seq<nat>, tried: seq<nat>)
    requires 1 <= at <= n + 1 && (at <= n ==> at !in completed)
    requires sent == Missing(at - 1, completed) && tried == Missing(Min(at, n), completed)
    ensures SendsInOrder(Missing(n, completed), sent, tried, at == n + 1)
  {
    MissingPrefix(Min(at, n), n, completed);
    if at <= n {
      assert tried == sent + [at];
    }
  }

  lemma StoppedInOrder(plan: Plan, before: map<nat, Bytes>, s: Standing, tried: seq<nat>)
    requires Stopped(plan, before, s, tried)
    ensures s.at == |plan.deliveries| + 1 <==> EachConfirmed(plan)
    ensures SendsInOrder(Missing(|plan.deliveries|, plan.completed), s.sent, tried, s.at == |plan.deliveries| + 1)
  {
    EndsIffConfirmed(plan, s.at, s.sent);
    TriedInOrder(|plan.deliveries|, plan.completed, s.at, s.sent, tried);
  }

  /** At the end of the loop every slice is stored, and all of the file is counted. */
  lemma EndHoldsFile(plan: Plan, before: map<nat, Bytes>, s: Standing, tried: seq<nat>)
    requires Stopped(plan, before, s, tried) && s.at == |plan.deliveries| + 1
    requires |plan.deliveries| * plan.size >= |plan.file|
    ensures HoldsSlices(s.parts, plan.file, plan.size, |plan.deliveries|) && s.uploadedBytes == |plan.file|
    ensures |s.progress| > 0 && Last(s.progress).uploadedBytes == |plan.file|
  {
    var n := |plan.deliveries|;
    forall k | 1 <= k <= n
      ensures k in s.done && k in s.parts && s.parts[k] == Slice(plan.file, plan.size, k)
    {
      DoneBefore(plan.completed, n + 1, k);
      assert SliceOrNothing(s.parts, plan.file, plan.size, k);
    }
    BytesOfAll(plan.file, plan.size, n, s.done);
  }

  /**
   * The loop from its start: it gets to the end exactly if every missing part is confirmed.  What
   * has arrived then are the missing parts, and otherwise those up to the first unconfirmed one.
   */
  lemma LoopSendsMissing(plan: Plan, before: map<nat, Bytes>, bytes: int, s: Standing)
    requires Backed(before, plan.file, plan.size, |plan.deliveries|, plan.completed)
    requires bytes == BytesOf(plan.file, plan.size, |plan.deliveries|, plan.completed)
    requires s == Finish(plan, Start(plan, before, bytes))
    ensures s.at == |plan.deliveries| + 1 <==> EachConfirmed(plan)
    ensures SendsInOrder(Missing(|plan.deliveries|, plan.completed), s.sent, Tried(plan, s), s.at == |plan.deliveries| + 1)
    ensures InRange(Tried(plan, s), |plan.deliveries|) && s.arrived == Sends(plan, Tried(plan, s))
    ensures Gained(plan, before, s.parts, Tried(plan, s))
    ensures Backed(s.parts, plan.file, plan.size, |plan.deliveries|, s.done) && s.done == DoneAfter(plan.completed, s.sent)
    ensures s.progress == Reports(plan.file, plan.size, |plan.deliveries|, plan.completed, s.sent)
    ensures s.at == |plan.deliveries| + 1 && |plan.deliveries| * plan.size >= |plan.file| ==>
              HoldsSlices(s.parts, plan.file, plan.size, |plan.deliveries|) && Last(s.progress).uploadedBytes == |plan.file|
  {
    StartsAlong(plan, before, bytes);
    FinishStops(plan, before, Start(plan, before, bytes));
    StoppedInOrder(plan, before, s, Tried(plan, s));
    if s.at == |plan.deliveries| + 1 && |plan.deliveries| * plan.size >= |plan.file| {
      EndHoldsFile(plan, before, s, Tried(plan, s));
    }
  }

  function Last(progress: seq<Progress>): Progress
    requires |progress| > 0
  {
    progress[|progress| - 1]
  }

  /**
   * Sends every part that is not completed yet, reporting before and after each, and nothing else:
   * what arrives at the backend are the slices of `tried`, the parts sent and the one that failed.
   * When a part fails, what is done so far is again a point to start from.
   */
  method SendMissing(backend: LocalObjectBackend, uploadId: string, key: string, file: Bytes, size: nat, partCount: nat,
                     completed: set<nat>, completedBytes: nat, deliveries: seq<seq<Delivery>>)
    returns (ok: bool, done: set<nat>, sent: seq<nat>, progress: seq<Progress>, ghost tried: seq<nat>)
    requires backend.PrintsLowerCase() && backend.Bound(uploadId, key) == None && |deliveries| == partCount
    requires Backed(PartsOf(backend, uploadId), file, size, partCount, completed)
    requires completedBytes == BytesOf(file, size, partCount, completed)
    modifies backend`uploads, backend`arrivals
    ensures backend.Bound(uploadId, key) == None && Others(backend.uploads, uploadId) == old(Others(backend.uploads, uploadId))
    ensures ok <==> EachConfirmed(Plan(uploadId, key, file, size, completed, deliveries))
    ensures SendsInOrder(Missing(partCount, completed), sent, tried, ok) && InRange(tried, partCount)
    ensures backend.arrivals == old(backend.arrivals) + Sends(Plan(uploadId, key, file, size, completed, deliveries), tried)
    ensures Gained(Plan(uploadId, key, file, size, completed, deliveries), old(PartsOf(backend, uploadId)), PartsOf(backend, uploadId),
                   tried)
    ensures Backed(PartsOf(backend, uploadId), file, size, partCount, done) && done == DoneAfter(completed, sent)
    ensures progress == Reports(file, size, partCount, completed, sent)
    ensures ok && partCount * size >= |file| ==>
              HoldsSlices(PartsOf(backend, uploadId), file, size, partCount) && Last(progress).uploadedBytes == |file|
  {
    ghost var plan, before, arrived := Plan(uploadId, key, file, size, completed, deliveries), PartsOf(backend, uploadId), [];
    var at, uploadedBytes;
    ok, at, done, uploadedBytes, sent, progress, arrived :=
      SendEach(backend, uploadId, key, file, size, partCount, completed, completedBytes, deliveries);
    ghost var s := Standing(at, done, uploadedBytes, sent, progress, PartsOf(backend, uploadId), arrived);
    tried := Tried(plan, s);
    LoopSendsMissing(plan, before, completedBytes, s);
  }

  /**
   * The whole journey: whatever was already there, the upload succeeds exactly if every missing
   * part is confirmed, has then sent just those, and its completion stores the file.
   */
  method UploadFile(backend: LocalObjectBackend, uploadId: string, key: string, file: Bytes, size: nat, completed: set<nat>,
                    completedBytes: nat, deliveries: seq<seq<Delivery>>, listed: seq<PartRef>, later: Bytes)
    returns (ok: bool, sent: seq<nat>, progress: seq<Progress>, ghost tried: seq<nat>)
    requires size >= 1 && file != [] && |deliveries| == PartCount(|file|, size)
    requires backend.PrintsLowerCase() && backend.Bound(uploadId, key) == None && key !in backend.objects
    requires var n := |deliveries|;
             && n <= MAX_PART_NUMBER
             && Backed(PartsOf(backend, uploadId), file, size, n, completed)
             && completedBytes == BytesOf(file, size, n, completed)
             && |listed| == n && ListsSlices(backend, listed, file, size)
    modifies backend
    ensures ok <==> EachConfirmed(Plan(uploadId, key, file, size, completed, deliveries))
    ensures SendsInOrder(Missing(|deliveries|, completed), sent, tried, ok) && InRange(tried, |deliveries|)
    ensures backend.arrivals == old(backend.arrivals) + Sends(Plan(uploadId, key, file, size, completed, deliveries), tried)
    ensures backend.objects == if ok then old(backend.objects)[key := file] else old(backend.objects)
    ensures Others(backend.uploads, uploadId) == old(Others(backend.uploads, uploadId)) && (ok <==> uploadId !in backend.uploads)
    ensures !ok ==>
              && backend.Bound(uploadId, key) == None
              && Gained(Plan(uploadId, key, file, size, completed, deliveries), old(PartsOf(backend, uploadId)),
                        PartsOf(backend, uploadId), tried)
    ensures progress == Reports(file, size, |deliveries|, completed, sent)
    ensures ok ==> Last(progress).uploadedBytes == |file|
  {
    PartsCoverFile(|file|, size);
    var done;
    ok, done, sent, progress, tried :=
      SendMissing(backend, uploadId, key, file, size, |deliveries|, completed, completedBytes, deliveries);
    if ok {
      var head := UploadThenComplete(backend, uploadId, key, file, size, listed, later);
    }
  }
}
