/**
 * Reservations: reserving R and settling at C, with anything interleaved, moves each pot by
 * exactly what debiting C outright would have moved it when the reservation was made, and a
 * reversal at any point gives both pots back exactly.
 */
module LedgerReservations {
  import opened Prelude
  import opened MannaLedger
  import opened LedgerInvariants

  /** The split of a debit of `held` when the subscription pot could pay `share` of it. */
  function Split(share: int, held: int): Pots {
    Pots(-Min(share, held), -(held - Min(share, held)))
  }

  function Plus(x: Pots, y: Pots): Pots {
    Pots(x.subscription + y.subscription, x.durable + y.durable)
  }

  function Minus(x: Pots, y: Pots): Pots {
    Pots(x.subscription - y.subscription, x.durable - y.durable)
  }

  /** How one call moves the two pots of an account. */
  function PotsMoved(b: Books, c: Call, account: string): Pots {
    Minus(PotsOf(Step(b, c).accounts, account), PotsOf(b.accounts, account))
  }

  predicate Concerns(c: Call, key: string) {
    match c
    case DebitCall(p) => p.key == key
    case CreditCall(p) => p.key == Some(key)
    case RefundCall(k, _, _) => k == key
    case SettleCall(k, _, _, _, _) => k == key
    case ReverseCall(k, _, _, _) => k == key
  }

  /** The total the calls naming `key` moved the two pots by, leaving out every other call of the run. */
  function Contribution(b: Books, calls: seq<Call>, key: string, account: string): Pots
    decreases |calls|
  {
    if calls == [] then Pots(0, 0)
    else
      var rest := Contribution(Step(b, calls[0]), calls[1..], key, account);
      if Concerns(calls[0], key) then Plus(PotsMoved(b, calls[0], account), rest) else rest
  }

  /** Callers pass back the subscription share the reservation reported, and do not use the durable-only refund. */
  predicate SplitAware(c: Call, key: string, share: int) {
    match c
    case RefundCall(k, _, _) => k != key
    case SettleCall(k, _, s, _, _) => k == key ==> s == share
    case ReverseCall(k, known, _, _) => k == key ==> known == Some(share)
    case _ => true
  }

  ghost predicate Reserved(b: Books, at: nat, p: DebitParams, share: int) {
    Sound(b) && at < |b.rows| && b.rows[at] == DebitRow(p) && 0 <= share <= p.amount
  }

  function Held(b: Books, at: nat, p: DebitParams): int {
    p.amount - Refunded(b.rows, at)
  }

  lemma {:induction false} SomeLegIsLinked(rows: seq<Row>, original: nat) returns (leg: nat)
    requires Refunded(rows, original) > 0
    ensures leg < |rows| && rows[leg].reverses == Some(original)
  {
    leg := |rows| - 1;
    if rows[leg].reverses != Some(original) {
      leg := SomeLegIsLinked(rows[..leg], original);
    }
  }

  /** If part of the reservation is back but not all, its settlement leg is already written. */
  lemma PartlyReturnedMeansSettled(b: Books, at: nat, p: DebitParams, share: int)
    requires Reserved(b, at, p, share)
    requires 0 < Held(b, at, p) < p.amount
    ensures FindKey(b.rows, SettleKey(p.key)).Some?
  {
    var leg := SomeLegIsLinked(b.rows, at);
    assert GoodLink(b.rows, b.rows[leg], leg);
    assert !IsReversalOf(b.rows, b.rows[leg], at);
  }

  lemma FoundAt(b: Books, at: nat, p: DebitParams, share: int)
    requires Reserved(b, at, p, share)
    ensures FindKey(b.rows, p.key) == Some(at)
  {
  }

  /** What a posted leg does to the held amount and to the two pots. */
  lemma LegMoves(b: Books, at: nat, p: DebitParams, leg: LegParams)
    requires at < |b.rows| && b.rows[at] == DebitRow(p) && FindKey(b.rows, leg.original) == Some(at)
    requires !NoLeg(LegEffect(b, leg).1)
    ensures var after := LegEffect(b, leg).0;
            var amount := if leg.amount.Some? then leg.amount.value else Held(b, at, p);
            var back := Min(Max(leg.toSubscription, 0), amount);
            && FindKey(b.rows, leg.key).None?
            && 0 < amount <= Held(b, at, p)
            && Held(after, at, p) == Held(b, at, p) - amount
            && Minus(PotsOf(after.accounts, p.account), PotsOf(b.accounts, p.account)) == Pots(back, amount - back)
  {
    var after := LegEffect(b, leg).0;
    RefundedAppend(b.rows, after.rows[|b.rows|], at);
  }

  lemma SettleMovesSplit(b: Books, at: nat, p: DebitParams, share: int, charge: int, kind: string, now: int)
    requires Reserved(b, at, p, share)
    ensures var (after, reply) := SettleEffect(b, p.key, charge, share, kind, now);
            && Minus(PotsOf(after.accounts, p.account), PotsOf(b.accounts, p.account)) ==
               Minus(Split(share, Held(after, at, p)), Split(share, Held(b, at, p)))
            && (!LegIdle(reply) ==> Held(after, at, p) == charge)
  {
    FoundAt(b, at, p, share);
    var (after, reply) := SettleEffect(b, p.key, charge, share, kind, now);
    if LegIdle(reply) {
      var row, pots := SettlePosts(b, p.key, charge, share, kind, now);
    } else {
      LegMoves(b, at, p, SettleLeg(b.rows, at, p.key, charge, share, kind, now));
      HeldBounds(b, at, p, share);
      if Held(b, at, p) < p.amount {
        PartlyReturnedMeansSettled(b, at, p, share);
      }
    }
  }

  lemma ReverseMovesSplit(b: Books, at: nat, p: DebitParams, share: int, kind: string, now: int)
    requires Reserved(b, at, p, share)
    ensures var (after, reply) := ReverseEffect(b, p.key, Some(share), kind, now);
            && Minus(PotsOf(after.accounts, p.account), PotsOf(b.accounts, p.account)) ==
               Minus(Split(share, Held(after, at, p)), Split(share, Held(b, at, p)))
            && (reply.Ok? ==> Held(after, at, p) == 0)
  {
    FoundAt(b, at, p, share);
    HeldBounds(b, at, p, share);
    var (after, reply) := ReverseEffect(b, p.key, Some(share), kind, now);
    if LegIdle(reply) {
      var row, pots := ReversePosts(b, p.key, Some(share), kind, now);
      if reply.Ok? {
        ReversalReplayHoldsNothing(b, at, p, share, kind, now);
      }
    } else {
      LegMoves(b, at, p, ReverseLeg(b.rows, at, p.key, Some(share), kind, now));
    }
  }

  /**
   * The plain refund gives back everything held, all of it to the durable pot, so it restores the
   * reservation's split exactly when none of what is held came out of the subscription pot.
   */
  lemma PlainRefundRestoresSplitIff(b: Books, at: nat, p: DebitParams, share: int, kind: string, now: int)
    requires Reserved(b, at, p, share) && !RefundIdle(RefundEffect(b, p.key, kind, now).1)
    ensures var c := RefundCall(p.key, kind, now);
            && Held(Step(b, c), at, p) == 0
            && PotsMoved(b, c, p.account) == Pots(0, Held(b, at, p))
            && (PotsMoved(b, c, p.account) == Minus(Split(share, 0), Split(share, Held(b, at, p))) <==> share == 0)
  {
    FoundAt(b, at, p, share);
    LegMoves(b, at, p, LegParams(p.key, None, RefundKey(p.key), kind, 0, now));
  }

  /** A reversal that reports success without posting found its own leg already in the ledger, or nothing held. */
  lemma ReversalReplayHoldsNothing(b: Books, at: nat, p: DebitParams, share: int, kind: string, now: int)
    requires Reserved(b, at, p, share)
    requires var reply := ReverseEffect(b, p.key, Some(share), kind, now).1; reply.Ok? && LegIdle(reply)
    ensures Held(b, at, p) == 0
  {
    FoundAt(b, at, p, share);
    HeldBounds(b, at, p, share);
    var existing := FindKey(b.rows, RefundKey(p.key));
    if existing.Some? {
      var leg := existing.value;
      assert b.rows[leg].reverses == Some(at);
      assert GoodLink(b.rows, b.rows[leg], leg);
      assert IsReversalOf(b.rows, b.rows[leg], at);
    }
  }

  lemma HeldBounds(b: Books, at: nat, p: DebitParams, share: int)
    requires Reserved(b, at, p, share)
    ensures 0 <= Held(b, at, p) <= p.amount
  {
    assert b.rows[at].amount < 0;
    OffsetWithinRefunded(b.rows, Rolling("", 0), at);
  }

  lemma OtherCallKeepsHeld(b: Books, at: nat, p: DebitParams, share: int, c: Call)
    requires Reserved(b, at, p, share) && !Concerns(c, p.key)
    ensures Held(Step(b, c), at, p) == Held(b, at, p)
  {
    var row, pots := CallPosts(b, c);
    if !Idle(b, c) {
      RefundedAppend(b.rows, row, at);
    }
  }

  lemma StepKeepsReserved(b: Books, at: nat, p: DebitParams, share: int, c: Call)
    requires Reserved(b, at, p, share)
    ensures Reserved(Step(b, c), at, p, share)
  {
    StepKeepsSound(b, c);
  }

  lemma ConcernedCallMovesSplit(b: Books, at: nat, p: DebitParams, share: int, c: Call)
    requires Reserved(b, at, p, share) && Concerns(c, p.key) && SplitAware(c, p.key, share)
    ensures PotsMoved(b, c, p.account) == Minus(Split(share, Held(Step(b, c), at, p)), Split(share, Held(b, at, p)))
  {
    match c
    case DebitCall(_) => KeyPostsOnce(b, at, p.key, [], c);
    case CreditCall(_) => KeyPostsOnce(b, at, p.key, [], c);
    case SettleCall(_, charge, _, kind, now) => SettleMovesSplit(b, at, p, share, charge, kind, now);
    case ReverseCall(_, _, kind, now) => ReverseMovesSplit(b, at, p, share, kind, now);
  }

  lemma {:induction false} RunMovesSplit(b: Books, at: nat, p: DebitParams, share: int, calls: seq<Call>)
    requires Reserved(b, at, p, share)
    requires forall i :: 0 <= i < |calls| ==> SplitAware(calls[i], p.key, share)
    ensures Contribution(b, calls, p.key, p.account) ==
            Minus(Split(share, Held(Run(b, calls), at, p)), Split(share, Held(b, at, p)))
    decreases |calls|
  {
    if calls != [] {
      var c := calls[0];
      StepKeepsReserved(b, at, p, share, c);
      RunMovesSplit(Step(b, c), at, p, share, calls[1..]);
      if Concerns(c, p.key) {
        ConcernedCallMovesSplit(b, at, p, share, c);
      } else {
        OtherCallKeepsHeld(b, at, p, share, c);
      }
    }
  }

  /** The same debit for another amount. */
  function ForAmount(p: DebitParams, amount: int): DebitParams {
    p.(amount := amount)
  }

  lemma SmallerDebitFits(b: Books, p: DebitParams, amount: int)
    requires 0 < amount <= p.amount && !ReceiptIdle(DebitEffect(b, p).1)
    ensures DebitEffect(b, ForAmount(p, amount)).0 ==
            Post(b, DebitRow(ForAmount(p, amount)), Drain(PotsOf(b.accounts, p.account), amount))
  {
    assert CapRefusal(b.rows, p).None?;
    assert CapRefusal(b.rows, ForAmount(p, amount)).None?;
  }

  lemma DrainIsSplit(pots: Pots, reserved: int, amount: int)
    requires pots.subscription >= 0 && 0 <= amount <= reserved
    ensures Minus(Drain(pots, amount), pots) == Split(Min(pots.subscription, reserved), amount)
  {
  }

  lemma PostedDebit(b: Books, p: DebitParams, share: int) returns (left: Pots)
    requires Solvent(b.accounts) && !ReceiptIdle(DebitEffect(b, p).1)
    requires DebitEffect(b, p).1.value.subscriptionDrawn == Some(share)
    ensures Posts(b, DebitEffect(b, p).0, DebitRow(p), left)
    ensures 0 <= share <= p.amount
  {
    left := DebitPosts(b, p);
  }

  lemma ReserveHolds(b: Books, p: DebitParams, share: int)
    requires Sound(b) && !ReceiptIdle(DebitEffect(b, p).1)
    requires DebitEffect(b, p).1.value.subscriptionDrawn == Some(share)
    ensures Reserved(DebitEffect(b, p).0, |b.rows|, p, share)
    ensures Held(DebitEffect(b, p).0, |b.rows|, p) == p.amount
  {
    var left := PostedDebit(b, p, share);
    PostedHolds(b, p, share, left);
  }

  lemma PostedHolds(b: Books, p: DebitParams, share: int, left: Pots)
    requires Sound(b) && GoodPost(b, DebitRow(p), left) && 0 <= share <= p.amount
    ensures Reserved(Post(b, DebitRow(p), left), |b.rows|, p, share)
    ensures Held(Post(b, DebitRow(p), left), |b.rows|, p) == p.amount
  {
    PostKeepsSound(b, DebitRow(p), left);
    RefundedAppend(b.rows, DebitRow(p), |b.rows|);
    LaterRowsUnlinked(b.rows, |b.rows|);
  }

  lemma DirectDebitMoves(b: Books, p: DebitParams, share: int, amount: int)
    requires Solvent(b.accounts) && !ReceiptIdle(DebitEffect(b, p).1) && 0 < amount <= p.amount
    requires DebitEffect(b, p).1.value.subscriptionDrawn == Some(share)
    ensures Minus(PotsOf(DebitEffect(b, ForAmount(p, amount)).0.accounts, p.account), PotsOf(b.accounts, p.account)) ==
            Split(share, amount)
  {
    SmallerDebitFits(b, p, amount);
    DrainIsSplit(PotsOf(b.accounts, p.account), p.amount, amount);
  }

  lemma RunFrom(b: Books, c: Call, calls: seq<Call>, key: string, account: string)
    requires Concerns(c, key)
    ensures Run(b, [c] + calls) == Run(Step(b, c), calls)
    ensures Contribution(b, [c] + calls, key, account) ==
            Plus(PotsMoved(b, c, account), Contribution(Step(b, c), calls, key, account))
  {
    var run := [c] + calls;
    assert run[0] == c && run[1..] == calls;
  }

  /**
   * The reservation theorem.  `p` is applied to sound books `b` and reports `share`; then any
   * calls run, those naming the reservation passing that share back.  Whatever is still held at
   * the end, the reservation's own calls have moved each pot exactly as a direct debit of the
   * held amount would have at reservation time, and by nothing at all when nothing is held.
   */
  lemma ReservationTracksDirectDebit(b: Books, p: DebitParams, share: int, calls: seq<Call>)
    requires Sound(b) && !ReceiptIdle(DebitEffect(b, p).1)
    requires DebitEffect(b, p).1.value.subscriptionDrawn == Some(share)
    requires forall i :: 0 <= i < |calls| ==> SplitAware(calls[i], p.key, share)
    ensures var reserve := [DebitCall(p)];
            var held := Held(Run(b, reserve + calls), |b.rows|, p);
            && 0 <= held <= p.amount
            && Contribution(b, reserve + calls, p.key, p.account) ==
               if held == 0 then Pots(0, 0) else PotsMoved(b, DebitCall(ForAmount(p, held)), p.account)
  {
    RunFrom(b, DebitCall(p), calls, p.key, p.account);
    ReserveHolds(b, p, share);
    DirectDebitMoves(b, p, share, p.amount);
    var reserved := Step(b, DebitCall(p));
    assert Reserved(reserved, |b.rows|, p, share);
    AfterReserve(b, reserved, p, share, calls);
  }

  lemma AfterReserve(b: Books, reserved: Books, p: DebitParams, share: int, calls: seq<Call>)
    requires Solvent(b.accounts) && !ReceiptIdle(DebitEffect(b, p).1)
    requires DebitEffect(b, p).1.value.subscriptionDrawn == Some(share)
    requires Reserved(reserved, |b.rows|, p, share) && Held(reserved, |b.rows|, p) == p.amount
    requires forall i :: 0 <= i < |calls| ==> SplitAware(calls[i], p.key, share)
    ensures var held := Held(Run(reserved, calls), |b.rows|, p);
            && 0 <= held <= p.amount
            && Plus(Split(share, p.amount), Contribution(reserved, calls, p.key, p.account)) ==
               if held == 0 then Pots(0, 0)
               else Minus(PotsOf(DebitEffect(b, ForAmount(p, held)).0.accounts, p.account), PotsOf(b.accounts, p.account))
  {
    RunMovesSplit(reserved, |b.rows|, p, share, calls);
    RunHeldBounds(reserved, |b.rows|, p, share, calls);
    var held := Held(Run(reserved, calls), |b.rows|, p);
    if held > 0 {
      DirectDebitMoves(b, p, share, held);
    }
  }

  lemma RunHeldBounds(b: Books, at: nat, p: DebitParams, share: int, calls: seq<Call>)
    requires Reserved(b, at, p, share)
    ensures Reserved(Run(b, calls), at, p, share)
    ensures 0 <= Held(Run(b, calls), at, p) <= p.amount
  {
    RunKeepsSound(b, calls);
    HeldBounds(Run(b, calls), at, p, share);
  }

  /** What settling and reversing leave held: exactly the charge, and exactly nothing. */
  lemma SettleHoldsChargeReverseHoldsNothing(b: Books, at: nat, p: DebitParams, share: int, c: Call)
    requires Reserved(b, at, p, share) && Concerns(c, p.key) && SplitAware(c, p.key, share)
    ensures c.SettleCall? && !Idle(b, c) ==> Held(Step(b, c), at, p) == c.charge
    ensures c.ReverseCall? && ReverseEffect(b, c.key, c.known, c.kind, c.now).1.Ok? ==> Held(Step(b, c), at, p) == 0
  {
    if c.SettleCall? {
      SettleMovesSplit(b, at, p, share, c.charge, c.kind, c.now);
    } else if c.ReverseCall? {
      ReverseMovesSplit(b, at, p, share, c.kind, c.now);
    }
  }

  /**
   * Exactly when settling writes a row: nothing is back yet, the charge leaves something unused,
   * and the settlement key is free.  Settling at the full reservation writes no row, so only
   * then can a second settlement at another charge still apply.
   */
  lemma SettlePostsIff(b: Books, at: nat, p: DebitParams, share: int, charge: int, kind: string, now: int)
    requires Reserved(b, at, p, share)
    ensures !LegIdle(SettleEffect(b, p.key, charge, share, kind, now).1) <==>
            && Held(b, at, p) == p.amount
            && 0 <= charge < p.amount
            && FindKey(b.rows, SettleKey(p.key)).None?
  {
    FoundAt(b, at, p, share);
    HeldBounds(b, at, p, share);
    assert b.rows[at].account in b.accounts;
    var reply := SettleEffect(b, p.key, charge, share, kind, now).1;
    if !LegIdle(reply) {
      LegMoves(b, at, p, SettleLeg(b.rows, at, p.key, charge, share, kind, now));
      if Held(b, at, p) < p.amount {
        PartlyReturnedMeansSettled(b, at, p, share);
      }
    }
  }

  /** At most one settlement with an unused part: after it, no run lets a second one move anything. */
  lemma SettledOnce(b: Books, at: nat, p: DebitParams, share: int, first: Call, calls: seq<Call>, second: Call)
    requires Reserved(b, at, p, share)
    requires first.SettleCall? && first.key == p.key && first.share == share && !Idle(b, first)
    requires second.SettleCall? && second.key == p.key && second.share == share
    ensures var after := Run(Step(b, first), calls); Step(after, second) == after
  {
    SettleMovesSplit(b, at, p, share, first.charge, first.kind, first.now);
    SettlePostsIff(b, at, p, share, first.charge, first.kind, first.now);
    StepKeepsReserved(b, at, p, share, first);
    var settled := Step(b, first);
    RunHeldBounds(settled, at, p, share, calls);
    RunKeepsSound(settled, calls);
    var after := Run(settled, calls);
    RefundedGrows(settled.rows, after.rows, at);
    SettlePostsIff(after, at, p, share, second.charge, second.kind, second.now);
    var row, pots := SettlePosts(after, second.key, second.charge, second.share, second.kind, second.now);
  }

  lemma {:induction false} RefundedGrows(rows: seq<Row>, more: seq<Row>, original: nat)
    requires rows <= more
    ensures Refunded(rows, original) <= Refunded(more, original)
    decreases |more|
  {
    if |rows| < |more| {
      RefundedGrows(rows, more[..|more| - 1], original);
    } else {
      assert rows == more;
    }
  }
}
