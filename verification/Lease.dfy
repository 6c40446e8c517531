/**
 * The authorization lease of a long-lived event stream (apps/api/src/events-bus.ts) together
 * with the keepalive timer that drives it, as a timed state machine.  Timers fire on time:
 * time does not pass a moment at which one is due.
 */
module Lease {
  import opened Prelude

  const LEASE_MS := 15_000
  const KEEPALIVE_INTERVAL_MS := 10_000
  const CHECK_TIMEOUT_MS := LEASE_MS - KEEPALIVE_INTERVAL_MS

  /** What the lease asks its owner to do. */
  datatype Report = Silent | Authorized | Denied | AuthorizedThenDenied

  datatype LeaseState = LeaseState(active: bool, checking: bool, deadline: Option<int>)

  /** How the owner's `onAuthorized` callback ends: by writing a ping, by stopping the lease, or by throwing. */
  datatype Callback = Wrote | Stopped | Threw

  function Begin(s: LeaseState, now: int, timeout: int): LeaseState {
    if !s.active || s.checking then s else LeaseState(true, true, Some(now + timeout))
  }

  /** The end of a check, won by the verifier's answer or, with `ok` false, by the deadline or a stop. */
  function Settle(s: LeaseState, ok: bool, callback: Callback): (LeaseState, Report) {
    if !s.active then (LeaseState(false, false, None), Silent)
    else if !ok then (LeaseState(false, false, None), Denied)
    else
      match callback
      case Wrote => (LeaseState(true, false, None), Authorized)
      case Stopped => (LeaseState(false, false, None), Silent)
      case Threw => (LeaseState(false, false, None), AuthorizedThenDenied)
  }

  function Ended(s: LeaseState): LeaseState {
    LeaseState(false, false, None)
  }

  predicate ValidTimeout(timeout: int) {
    1 <= timeout <= CHECK_TIMEOUT_MS
  }

  predicate ValidInterval(interval: int) {
    10 <= interval <= KEEPALIVE_INTERVAL_MS
  }

  class SessionEventAuthorizationLease {
    const checkTimeoutMs: int
    var active: bool
    var checking: bool
    var deadline: Option<int>

    constructor (timeout: int)
      ensures View() == LeaseState(true, false, None) && checkTimeoutMs == timeout
    {
      checkTimeoutMs := timeout;
      active, checking, deadline := true, false, None;
    }

    /** The constructor of the source refuses any other timeout. */
    static method Create(timeout: int) returns (lease: Result<SessionEventAuthorizationLease, string>)
      ensures lease.Ok? <==> 1 <= timeout <= 5_000
      ensures lease.Ok? ==>
                && fresh(lease.value) && lease.value.checkTimeoutMs == timeout
                && lease.value.View() == LeaseState(true, false, None)
    {
      if timeout < 1 || timeout > CHECK_TIMEOUT_MS {
        return Err("session event authorization timeout must be from 1ms to 5000ms");
      }
      var made := new SessionEventAuthorizationLease(timeout);
      lease := Ok(made);
    }

    function View(): LeaseState
      reads this
    {
      LeaseState(active, checking, deadline)
    }

    /** The part of `reauthorize` before its race: single flight, and a deadline for the check. */
    method BeginCheck(now: int) returns (started: bool)
      modifies this
      ensures View() == Begin(old(View()), now, checkTimeoutMs)
      ensures started <==> old(active) && !old(checking)
    {
      if !active || checking {
        return false;
      }
      checking := true;
      deadline := Some(now + checkTimeoutMs);
      started := true;
    }

    /** The part of `reauthorize` after its race. */
    method EndCheck(ok: bool, callback: Callback) returns (report: Report)
      modifies this
      ensures (View(), report) == Settle(old(View()), ok, callback)
    {
      report := Silent;
      if !ok {
        var denied := Deny();
        if denied {
          report := Denied;
        }
      } else if active {
        match callback {
          case Wrote => report := Authorized;
          case Stopped => active := false;
          case Threw =>
            var denied := Deny();
            report := AuthorizedThenDenied;
        }
      }
      deadline := None;
      checking := false;
    }

    method Deny() returns (denied: bool)
      modifies this`active
      ensures !active && denied == old(active)
    {
      denied := active;
      active := false;
    }

    /** Stopping resolves a pending race at once; its continuation finds the lease inactive. */
    method Stop()
      modifies this
      ensures View() == Ended(old(View()))
    {
      active := false;
      var report := EndCheck(false, Wrote);
    }
  }

  // ---------------------------------------------------------------------------
  // The stream: lease, keepalive timer and clock
  // ---------------------------------------------------------------------------

  /**
   * `began` is when the running check began, `good` when the last successful one did, or the
   * admission of the stream; `log` is what the lease reported, in order.
   */
  datatype Stream = Stream(now: int, lease: LeaseState, ticking: bool, nextTick: int, began: int, good: int, log: seq<Report>)

  datatype Step =
    | Wait(duration: int)
    | Tick
    | Answer(ok: bool, callback: Callback)
    | DeadlineFires
    | Close

  predicate Enabled(s: Stream, step: Step) {
    match step
    case Wait(d) =>
      && d > 0
      && (s.ticking ==> s.now + d <= s.nextTick)
      && (s.lease.deadline.Some? ==> s.now + d <= s.lease.deadline.value)
    case Tick => s.ticking && s.now == s.nextTick
    case Answer(ok, callback) => s.lease.checking
    case DeadlineFires => s.lease.deadline == Some(s.now)
    case Close => true
  }

  function Settled(s: Stream, ok: bool, callback: Callback): Stream {
    var (lease, report) := Settle(s.lease, ok, callback);
    s.(lease := lease,
       ticking := s.ticking && lease.active,
       good := if ok && s.lease.active then s.began else s.good,
       log := if report == Silent then s.log else s.log + [report])
  }

  function Do(s: Stream, step: Step, interval: int, timeout: int): Stream
    requires Enabled(s, step)
  {
    match step
    case Wait(d) => s.(now := s.now + d)
    case Tick =>
      s.(nextTick := s.nextTick + interval,
         lease := Begin(s.lease, s.now, timeout),
         began := if s.lease.active && !s.lease.checking then s.now else s.began)
    case Answer(ok, callback) => Settled(s, ok, callback)
    case DeadlineFires => Settled(s, false, Wrote)
    case Close => s.(lease := Ended(s.lease), ticking := false)
  }

  /** An admitted stream: subscribed, lease fresh, timer running. */
  function Admitted(at: int, interval: int): Stream {
    Stream(at, LeaseState(true, false, None), true, at + interval, at, at, [])
  }

  ghost predicate Reachable(steps: seq<Step>, s: Stream, t: Stream, interval: int, timeout: int)
    decreases |steps|
  {
    if steps == [] then s == t
    else Enabled(s, steps[0]) && Reachable(steps[1..], Do(s, steps[0], interval, timeout), t, interval, timeout)
  }

  // ---------------------------------------------------------------------------
  // The bound
  // ---------------------------------------------------------------------------

  /** The longest time from the beginning of a successful check to the beginning of the next one. */
  function Gap(interval: int, timeout: int): int {
    if timeout < interval then interval else timeout + interval
  }

  predicate Timely(s: Stream, interval: int, timeout: int) {
    && s.ticking == s.lease.active
    && (s.lease.checking == s.lease.deadline.Some?)
    && (s.lease.active ==>
          && s.now <= s.nextTick <= s.now + interval
          && s.good <= s.now
          && if s.lease.checking then
               && s.lease.deadline.value == s.began + timeout
               && s.began <= s.now <= s.began + timeout
               && s.good <= s.began <= s.good + Gap(interval, timeout)
               && (timeout < interval ==> s.nextTick == s.began + interval)
             else s.nextTick <= s.good + Gap(interval, timeout))
  }

  lemma StepKeepsTimely(s: Stream, step: Step, interval: int, timeout: int)
    requires ValidInterval(interval) && ValidTimeout(timeout)
    requires Timely(s, interval, timeout) && Enabled(s, step)
    ensures Timely(Do(s, step, interval, timeout), interval, timeout)
  {
  }

  lemma {:induction false} RunKeepsTimely(steps: seq<Step>, s: Stream, t: Stream, interval: int, timeout: int)
    requires ValidInterval(interval) && ValidTimeout(timeout)
    requires Timely(s, interval, timeout) && Reachable(steps, s, t, interval, timeout)
    ensures Timely(t, interval, timeout)
    decreases |steps|
  {
    if steps != [] {
      StepKeepsTimely(s, steps[0], interval, timeout);
      RunKeepsTimely(steps[1..], Do(s, steps[0], interval, timeout), t, interval, timeout);
    }
  }

  /**
   * At every moment the stream is active, the admission or a check that succeeded began at most
   * fifteen seconds earlier, for every admissible interval and timeout and however checks,
   * ticks and deadlines fall.
   */
  lemma AuthorityIsFresh(steps: seq<Step>, at: int, t: Stream, interval: int, timeout: int)
    requires ValidInterval(interval) && ValidTimeout(timeout)
    requires Reachable(steps, Admitted(at, interval), t, interval, timeout) && t.lease.active
    ensures t.good <= t.now <= t.good + Gap(interval, timeout) + timeout <= t.good + LEASE_MS
  {
    RunKeepsTimely(steps, Admitted(at, interval), t, interval, timeout);
  }

  /** `good` is honest: it only ever moves to the beginning of a check that has just answered yes. */
  lemma GoodIsASuccess(s: Stream, step: Step, interval: int, timeout: int)
    requires Enabled(s, step) && Do(s, step, interval, timeout).good != s.good
    ensures step.Answer? && step.ok && s.lease.checking && Do(s, step, interval, timeout).good == s.began
  {
  }

  /** The bound is attained at the production setting: ten seconds to the next check, five for its answer. */
  lemma BoundIsTight(at: int)
    ensures var steps := [Wait(10_000), Tick, Wait(5_000)];
            exists t :: Reachable(steps, Admitted(at, KEEPALIVE_INTERVAL_MS), t, KEEPALIVE_INTERVAL_MS, CHECK_TIMEOUT_MS) &&
                        t.lease.active && t.now == t.good + LEASE_MS
  {
    var p, q := KEEPALIVE_INTERVAL_MS, CHECK_TIMEOUT_MS;
    var s0 := Admitted(at, p);
    var s1 := Do(s0, Wait(10_000), p, q);
    var s2 := Do(s1, Tick, p, q);
    var s3 := Do(s2, Wait(5_000), p, q);
    var steps := [Wait(10_000), Tick, Wait(5_000)];
    assert steps[1..] == [Tick, Wait(5_000)] && steps[1..][1..] == [Wait(5_000)] && steps[1..][1..][1..] == [];
    assert Reachable([], s3, s3, p, q);
    assert Reachable([Wait(5_000)], s2, s3, p, q);
    assert Reachable([Tick, Wait(5_000)], s1, s3, p, q);
    assert Reachable(steps, s0, s3, p, q);
  }

  // ---------------------------------------------------------------------------
  // Reports
  // ---------------------------------------------------------------------------

  /** Authorizations, then at most one denial, after which nothing. */
  predicate Orderly(s: Stream) {
    && (s.lease.active ==> forall i :: 0 <= i < |s.log| ==> s.log[i] == Authorized)
    && (forall i :: 0 <= i < |s.log| - 1 ==> s.log[i] == Authorized)
  }

  lemma {:induction false} ReportsAreOrderly(steps: seq<Step>, s: Stream, t: Stream, interval: int, timeout: int)
    requires Orderly(s) && Reachable(steps, s, t, interval, timeout)
    ensures Orderly(t)
    ensures !s.lease.active ==> !t.lease.active && t.log == s.log
    decreases |steps|
  {
    if steps != [] {
      ReportsAreOrderly(steps[1..], Do(s, steps[0], interval, timeout), t, interval, timeout);
    }
  }

  /** Over a whole stream, denial is reported at most once and nothing is reported after denial or stop. */
  lemma DeniedAtMostOnce(first: seq<Step>, rest: seq<Step>, at: int, s: Stream, t: Stream, interval: int, timeout: int)
    requires Reachable(first, Admitted(at, interval), s, interval, timeout)
    requires Reachable(rest, s, t, interval, timeout)
    ensures forall i :: 0 <= i < |t.log| - 1 ==> t.log[i] == Authorized
    ensures s.log != [] && s.log[|s.log| - 1] != Authorized ==> t.log == s.log
    ensures !s.lease.active ==> !t.lease.active && t.log == s.log
  {
    ReportsAreOrderly(first, Admitted(at, interval), s, interval, timeout);
    ReportsAreOrderly(rest, s, t, interval, timeout);
  }

  /** A refused or overdue check ends the stream's authority on the spot. */
  lemma FailureEndsAuthority(s: Stream, step: Step, interval: int, timeout: int)
    requires Enabled(s, step) && (step.DeadlineFires? || (step.Answer? && !step.ok) || step.Close?)
    ensures !Do(s, step, interval, timeout).lease.active && !Do(s, step, interval, timeout).ticking
  {
  }

  // ---------------------------------------------------------------------------
  // What keeps a stream, and what it reports
  // ---------------------------------------------------------------------------

  /** A close, an overdue check, a refusal, or a callback that did not write its ping. */
  predicate Ends(step: Step) {
    match step
    case Close => true
    case DeadlineFires => true
    case Answer(ok, callback) => !ok || callback != Wrote
    case _ => false
  }

  /** What a run reports: one authorization for each ping, and what its first ending step says. */
  function ReportsOf(steps: seq<Step>): seq<Report> {
    if steps == [] then []
    else
      match steps[0]
      case Close => []
      case DeadlineFires => [Denied]
      case Answer(ok, callback) =>
        if !ok then [Denied]
        else if callback == Wrote then [Authorized] + ReportsOf(steps[1..])
        else if callback == Stopped then []
        else [AuthorizedThenDenied]
      case _ => ReportsOf(steps[1..])
  }

  /**
   * A stream stays active exactly until a close, an overdue check, a refusal, or a callback that
   * stopped or threw; what it has reported by any moment is just what those steps and the pings say.
   */
  lemma {:induction false} ActiveIffNothingEnded(steps: seq<Step>, s: Stream, t: Stream, interval: int, timeout: int)
    requires s.lease.active && Reachable(steps, s, t, interval, timeout)
    ensures t.lease.active <==> forall i :: 0 <= i < |steps| ==> !Ends(steps[i])
    ensures t.log == s.log + ReportsOf(steps)
    decreases |steps|
  {
    if steps != [] {
      var next := Do(s, steps[0], interval, timeout);
      if Ends(steps[0]) {
        EndedStaysEnded(steps[1..], next, t, interval, timeout);
      } else {
        ActiveIffNothingEnded(steps[1..], next, t, interval, timeout);
        assert forall i :: 0 < i < |steps| ==> steps[i] == steps[1..][i - 1];
      }
    }
  }

  lemma {:induction false} EndedStaysEnded(steps: seq<Step>, s: Stream, t: Stream, interval: int, timeout: int)
    requires !s.lease.active && Reachable(steps, s, t, interval, timeout)
    ensures !t.lease.active && t.log == s.log
    decreases |steps|
  {
    if steps != [] {
      EndedStaysEnded(steps[1..], Do(s, steps[0], interval, timeout), t, interval, timeout);
    }
  }

  function Pings(steps: seq<Step>): nat {
    if steps == [] then 0 else (if steps[0] == Answer(true, Wrote) then 1 else 0) + Pings(steps[1..])
  }

  /** While nothing has ended the stream, its log is one authorization for each check that was answered yes and pinged. */
  lemma {:induction false} ActiveLogIsItsPings(steps: seq<Step>)
    requires forall i :: 0 <= i < |steps| ==> !Ends(steps[i])
    ensures |ReportsOf(steps)| == Pings(steps)
    ensures forall i :: 0 <= i < Pings(steps) ==> ReportsOf(steps)[i] == Authorized
  {
    if steps != [] {
      assert forall i :: 0 <= i < |steps[1..]| ==> steps[1..][i] == steps[i + 1];
      ActiveLogIsItsPings(steps[1..]);
    }
  }

  /** A successful check leaves the stream ticking and ready: its next tick comes within one interval and begins the next check. */
  lemma SuccessIsReadyAgain(s: Stream, interval: int, timeout: int)
    requires ValidInterval(interval) && ValidTimeout(timeout) && Timely(s, interval, timeout)
    requires s.lease.active && Enabled(s, Answer(true, Wrote))
    ensures var t := Do(s, Answer(true, Wrote), interval, timeout);
            && t.lease == LeaseState(true, false, None) && t.ticking
            && t.now <= t.nextTick <= t.now + interval && t.good == s.began
            && var due := t.(now := t.nextTick);
               Enabled(due, Tick) &&
               Do(due, Tick, interval, timeout) ==
               due.(lease := LeaseState(true, true, Some(due.now + timeout)), nextTick := due.now + interval, began := due.now)
  {
  }

  /** An active stream is never stuck: time can pass, a tick is due, or a deadline is. */
  lemma ActiveStreamProceeds(s: Stream, interval: int, timeout: int)
    requires ValidInterval(interval) && ValidTimeout(timeout) && Timely(s, interval, timeout) && s.lease.active
    ensures Enabled(s, Wait(1)) || Enabled(s, Tick) || Enabled(s, DeadlineFires)
    ensures s.lease.checking ==> Enabled(s, Answer(true, Wrote))
  {
  }

  /** Closing is possible at any moment, ends an active stream in silence and adds nothing to an ended one. */
  lemma CloseIsSilent(s: Stream, interval: int, timeout: int)
    ensures Enabled(s, Close)
    ensures var t := Do(s, Close, interval, timeout); !t.lease.active && !t.ticking && t.log == s.log
  {
  }

  /** A tick during a check starts no second one. */
  lemma ChecksAreSingle(s: Stream, interval: int, timeout: int)
    requires s.lease.checking && Enabled(s, Tick)
    ensures Do(s, Tick, interval, timeout) == s.(nextTick := s.nextTick + interval)
  {
  }
}
