/**
 * When each ledger operation is admitted, what row it posts, and what that row does to the spend
 * totals, all stated over the rows of the ledger.
 */
module LedgerAdmission {
  import opened Prelude
  import opened MannaLedger
  import opened LedgerInvariants

  // ---------------------------------------------------------------------------
  // Spend totals over rows
  // ---------------------------------------------------------------------------

  predicate Unused(rows: seq<Row>, key: string) {
    forall i :: 0 <= i < |rows| ==> rows[i].key != Some(key)
  }

  /** Given back against the debit at `original`, by all linked rows or by those of a `refund...` type only. */
  function Returned(rows: seq<Row>, original: nat, refundsOnly: bool): int {
    if rows == [] then 0
    else
      var last := rows[|rows| - 1];
      Returned(rows[..|rows| - 1], original, refundsOnly) +
      if last.reverses == Some(original) && last.amount > 0 && (refundsOnly ==> "refund" <= last.kind) then last.amount else 0
  }

  predicate SpendsSince(row: Row, account: string, since: int) {
    row.amount < 0 && row.account == account && "spend" <= row.kind && row.at >= since
  }

  predicate ScopedSince(row: Row, prefix: string, since: int) {
    row.amount < 0 && row.key.Some? && LikePrefix(prefix, row.key.value) && row.at >= since
  }

  /** The account's own `spend...` debits since a moment among the first `n` rows, less what `refund...` rows returned of them. */
  function SpentByAccount(rows: seq<Row>, n: nat, account: string, since: int): int
    requires n <= |rows|
  {
    if n == 0 then 0
    else
      SpentByAccount(rows, n - 1, account, since) +
      if SpendsSince(rows[n - 1], account, since) then -rows[n - 1].amount - Returned(rows, n - 1, true) else 0
  }

  /** The debits under keys of a scope since a moment, less all that was returned of them. */
  function SpentInScope(rows: seq<Row>, n: nat, prefix: string, since: int): int
    requires n <= |rows|
  {
    if n == 0 then 0
    else
      SpentInScope(rows, n - 1, prefix, since) +
      if ScopedSince(rows[n - 1], prefix, since) then -rows[n - 1].amount - Returned(rows, n - 1, false) else 0
  }

  lemma {:induction false} OffsetIsReturned(rows: seq<Row>, q: Query, original: nat)
    ensures Offset(rows, q, original) == Returned(rows, original, ByAccount(q))
  {
    if rows != [] {
      OffsetIsReturned(rows[..|rows| - 1], q, original);
    }
  }

  lemma {:induction false} DailyIsSpent(rows: seq<Row>, n: nat, account: string, since: int)
    requires n <= |rows|
    ensures PlainNetSpend(rows, n, Daily(account, since)) == SpentByAccount(rows, n, account, since)
  {
    if n > 0 {
      DailyIsSpent(rows, n - 1, account, since);
      OffsetIsReturned(rows, Daily(account, since), n - 1);
    }
  }

  lemma {:induction false} RollingIsSpent(rows: seq<Row>, n: nat, prefix: string, since: int)
    requires n <= |rows|
    ensures PlainNetSpend(rows, n, Rolling(prefix, since)) == SpentInScope(rows, n, prefix, since)
  {
    if n > 0 {
      RollingIsSpent(rows, n - 1, prefix, since);
      OffsetIsReturned(rows, Rolling(prefix, since), n - 1);
    }
  }

  // ---------------------------------------------------------------------------
  // Debits
  // ---------------------------------------------------------------------------

  /** What the account spent on the UTC day of the debit, and its scope within the window behind it. */
  function SpentToday(rows: seq<Row>, p: DebitParams): int {
    SpentByAccount(rows, |rows|, p.account, p.now / 86_400_000 * 86_400_000)
  }

  function SpentInWindow(rows: seq<Row>, p: DebitParams): int
    requires p.rollingCap.Some?
  {
    var cap := p.rollingCap.value;
    SpentInScope(rows, |rows|, "budget:" + cap.scope + ":" + cap.scopeId + ":", p.now - cap.windowMs)
  }

  predicate ValidCap(p: DebitParams) {
    p.rollingCap.Some? ==>
      var cap := p.rollingCap.value;
      && IsScopePart(cap.scope) && IsScopeId(cap.scopeId) && cap.limit >= 0 && cap.windowMs > 0
      && "budget:" + cap.scope + ":" + cap.scopeId + ":" <= p.key
  }

  predicate CapsLeaveRoom(rows: seq<Row>, p: DebitParams) {
    && (p.dailyCap.Some? ==> SpentToday(rows, p) + p.amount <= p.dailyCap.value)
    && (p.rollingCap.Some? ==> SpentInWindow(rows, p) + p.amount <= p.rollingCap.value.limit)
  }

  lemma CheckedTotals(b: Books, p: DebitParams)
    requires Sound(b)
    ensures NetSpend(b.rows, |b.rows|, Daily(p.account, StartOfUtcDay(p.now))) == SpentToday(b.rows, p)
    ensures p.rollingCap.Some? ==>
              var cap := p.rollingCap.value;
              NetSpend(b.rows, |b.rows|, Rolling(ScopePrefix(cap.scope, cap.scopeId), p.now - cap.windowMs)) == SpentInWindow(b.rows, p)
  {
    var daily := Daily(p.account, StartOfUtcDay(p.now));
    assert StartOfUtcDay(p.now) == p.now / DAY_MS * DAY_MS;
    ClampsNeverBind(b, |b.rows|, daily);
    DailyIsSpent(b.rows, |b.rows|, p.account, StartOfUtcDay(p.now));
    if p.rollingCap.Some? {
      var cap := p.rollingCap.value;
      var prefix := ScopePrefix(cap.scope, cap.scopeId);
      ClampsNeverBind(b, |b.rows|, Rolling(prefix, p.now - cap.windowMs));
      RollingIsSpent(b.rows, |b.rows|, prefix, p.now - cap.windowMs);
    }
  }

  /**
   * A debit under a new key is applied exactly when the account's two pots hold the amount, the
   * day's own spend leaves room under the daily cap, and the scope's window under the rolling one.
   */
  lemma DebitAppliedIff(b: Books, p: DebitParams)
    requires Sound(b) && Unused(b.rows, p.key) && p.amount > 0 && ValidCap(p)
    ensures var reply := DebitEffect(b, p).1;
            reply.Ok? && !reply.value.alreadyApplied <==>
            && p.account in b.accounts && p.amount <= b.accounts[p.account].subscription + b.accounts[p.account].durable
            && CapsLeaveRoom(b.rows, p)
  {
    CheckedTotals(b, p);
  }

  /**
   * It posts one row, with the caller's type and time, and takes the amount from the subscription
   * pot as far as that goes and the rest from the durable one; no other account is touched.
   */
  lemma AppliedDebitPosts(b: Books, p: DebitParams)
    requires Sound(b)
    requires var reply := DebitEffect(b, p).1; reply.Ok? && !reply.value.alreadyApplied
    ensures var (after, reply) := DebitEffect(b, p);
            && after.rows == b.rows + [Row(p.account, -p.amount, p.kind, Some(p.key), None, p.now)]
            && p.account in b.accounts
            && var pots := b.accounts[p.account];
               var drawn := if pots.subscription < p.amount then pots.subscription else p.amount;
               && after.accounts == b.accounts[p.account := Pots(pots.subscription - drawn, pots.durable - (p.amount - drawn))]
               && reply.value == Receipt(|b.rows|, after.accounts[p.account], false, Some(drawn))
  {
  }

  /** A refusal names its cause, with the true total, and every cause is refused; a used key is answered with its row. */
  lemma DebitRefusalIsTrue(b: Books, p: DebitParams)
    requires Sound(b)
    ensures var (after, reply) := DebitEffect(b, p);
            && (reply == Err(InvalidAmount) <==> p.amount <= 0)
            && (p.amount > 0 && !Unused(b.rows, p.key) ==>
                  && reply.Ok? && reply.value.alreadyApplied && reply.value.row < |b.rows|
                  && b.rows[reply.value.row].key == Some(p.key) && after == b)
            && (p.amount > 0 && Unused(b.rows, p.key) && !ValidCap(p) ==>
                  reply.Err? && reply.error in {InvalidScope, InvalidLimit, InvalidWindow, KeyOutsideScope})
            && (reply.Err? ==> after == b && CauseHolds(b, p, reply.error))
  {
    CheckedTotals(b, p);
  }

  predicate CauseHolds(b: Books, p: DebitParams, error: Error) {
    match error
    case InvalidAmount => p.amount <= 0
    case InvalidScope => p.rollingCap.Some? && !(IsScopePart(p.rollingCap.value.scope) && IsScopeId(p.rollingCap.value.scopeId))
    case InvalidLimit => p.rollingCap.Some? && p.rollingCap.value.limit < 0
    case InvalidWindow => p.rollingCap.Some? && p.rollingCap.value.windowMs <= 0
    case KeyOutsideScope =>
      p.rollingCap.Some? && !("budget:" + p.rollingCap.value.scope + ":" + p.rollingCap.value.scopeId + ":" <= p.key)
    case DailyCapExceeded(spent) => p.dailyCap.Some? && spent == SpentToday(b.rows, p) && spent + p.amount > p.dailyCap.value
    case RollingCapExceeded(spent) =>
      p.rollingCap.Some? && spent == SpentInWindow(b.rows, p) && spent + p.amount > p.rollingCap.value.limit
    case InsufficientManna(available) =>
      && available < p.amount
      && available == (if p.account in b.accounts then b.accounts[p.account].subscription + b.accounts[p.account].durable else 0)
      && ValidCap(p) && CapsLeaveRoom(b.rows, p)
    case _ => false
  }

  // ---------------------------------------------------------------------------
  // Credits
  // ---------------------------------------------------------------------------

  /** A credit is applied exactly when its amount is positive and its key, if it has one, is new; it posts one row. */
  lemma CreditAppliedIff(b: Books, p: CreditParams)
    requires Sound(b)
    ensures var (after, reply) := CreditEffect(b, p);
            && (reply.Ok? && !reply.value.alreadyApplied <==> p.amount > 0 && (p.key.Some? ==> Unused(b.rows, p.key.value)))
            && (reply == Err(InvalidAmount) <==> p.amount <= 0)
            && (reply.Ok? && !reply.value.alreadyApplied ==>
                  && after.rows == b.rows + [Row(p.account, p.amount, p.kind, p.key, None, p.now)]
                  && var pots := if p.account in b.accounts then b.accounts[p.account] else Pots(0, 0);
                     var share := if p.toSubscription then p.amount else 0;
                     after.accounts == b.accounts[p.account := Pots(pots.subscription + share, pots.durable + p.amount - share)])
            && (reply.Err? ==> after == b)
  {
  }

  // ---------------------------------------------------------------------------
  // Legs of a debit
  // ---------------------------------------------------------------------------

  /** Row `at` is a debit under `key`. */
  predicate IsDebit(b: Books, at: nat, key: string) {
    at < |b.rows| && b.rows[at].key == Some(key) && b.rows[at].amount < 0
  }

  /** What the debit at `at` still holds. */
  function Open(rows: seq<Row>, at: nat): int
    requires at < |rows|
  {
    -rows[at].amount - Returned(rows, at, false)
  }

  lemma {:induction false} RefundedIsReturned(rows: seq<Row>, original: nat)
    ensures Refunded(rows, original) == Returned(rows, original, false)
  {
    if rows != [] {
      RefundedIsReturned(rows[..|rows| - 1], original);
    }
  }

  lemma OpenIsNotNegative(b: Books, at: nat, key: string)
    requires Sound(b) && IsDebit(b, at, key)
    ensures FindKey(b.rows, key) == Some(at) && 0 <= Open(b.rows, at)
    ensures Refunded(b.rows, at) == Returned(b.rows, at, false)
    ensures b.rows[at].account in b.accounts
  {
    RefundedIsReturned(b.rows, at);
  }

  /** The books with one leg of the debit at `at` written: `share` of it went to the subscription pot, the rest to the durable one. */
  predicate ReturnsTo(b: Books, after: Books, at: nat, amount: int, share: int, key: string, kind: string, now: int)
    requires at < |b.rows|
  {
    var account := b.rows[at].account;
    && account in b.accounts
    && var pots := b.accounts[account];
    && after.rows == b.rows + [Row(account, amount, kind, Some(key), Some(at), now)]
    && after.accounts == b.accounts[account := Pots(pots.subscription + share, pots.durable + amount - share)]
  }

  /**
   * A leg under a new key: posted exactly when what it asks for is positive and still held; it
   * returns that amount under its own type and time, at most the wanted share to the subscription pot.
   */
  lemma LegPostedIff(b: Books, at: nat, p: LegParams)
    requires Sound(b) && IsDebit(b, at, p.original) && Unused(b.rows, p.key)
    ensures var (after, reply) := LegEffect(b, p);
            var held := Open(b.rows, at);
            var amount := if p.amount.Some? then p.amount.value else held;
            && (after != b <==> 0 < amount <= held)
            && (after != b ==> ReturnsTo(b, after, at, amount, Min(Max(p.toSubscription, 0), amount), p.key, p.kind, p.now))
            && (reply == Err(InvalidRefund) <==> amount < 0)
            && (reply == Err(ExceedsRemainder(held)) <==> amount > held)
            && (reply.Ok? <==> 0 <= amount <= held)
            && (amount == 0 ==> reply == Ok(Some(LegReceipt(None, PotsOf(b.accounts, b.rows[at].account), false, 0, held))))
  {
    OpenIsNotNegative(b, at, p.original);
    var after := LegEffect(b, p).0;
    if 0 < (if p.amount.Some? then p.amount.value else Open(b.rows, at)) <= Open(b.rows, at) {
      assert |after.rows| == |b.rows| + 1;
    }
  }

  /** There is nothing to return of a key that is not in the ledger, nor of a row that is no debit; settling and reversing need a reservation. */
  lemma OnlyDebitsAreReturned(b: Books, p: LegParams, share: Option<int>, charge: int, kind: string, now: int)
    requires Unused(b.rows, p.key)
    ensures Unused(b.rows, p.original) ==>
              && LegEffect(b, p) == (b, Ok(None))
              && ReverseEffect(b, p.original, share, kind, now) == (b, Err(NoReservation))
              && (charge >= 0 ==> SettleEffect(b, p.original, charge, 0, kind, now) == (b, Err(NoReservation)))
    ensures forall at :: 0 <= at < |b.rows| && UniqueKeys(b.rows) && b.rows[at].key == Some(p.original) && b.rows[at].amount >= 0 ==>
              LegEffect(b, p) == (b, Err(NotADebit))
  {
  }

  /** A leg key already in the ledger is a replay exactly when it returned this debit and, if an amount is asked for, that amount. */
  lemma LegReplayedIff(b: Books, at: nat, leg: nat, p: LegParams)
    requires Sound(b) && IsDebit(b, at, p.original) && leg < |b.rows| && b.rows[leg].key == Some(p.key)
    ensures var (after, reply) := LegEffect(b, p);
            && after == b
            && (reply.Ok? <==> b.rows[leg].reverses == Some(at) && (p.amount.Some? ==> p.amount.value == b.rows[leg].amount))
            && (reply.Ok? ==> reply.value.Some? && reply.value.value.alreadyApplied && reply.value.value.row == Some(leg))
            && (reply == Err(ForeignReplay) <==> b.rows[leg].reverses != Some(at))
  {
    assert FindKey(b.rows, p.original) == Some(at) && FindKey(b.rows, p.key) == Some(leg);
  }

  /** A used leg key shown with an unknown debit is answered with what its row is, and nothing left to return. */
  lemma OrphanLegIsReplayed(b: Books, leg: nat, p: LegParams)
    requires UniqueKeys(b.rows) && Unused(b.rows, p.original) && leg < |b.rows| && b.rows[leg].key == Some(p.key)
    ensures LegEffect(b, p).0 == b
    ensures LegEffect(b, p).1 ==
            if p.amount.Some? && p.amount.value != b.rows[leg].amount then Err(AmountMismatch(b.rows[leg].amount))
            else Ok(Some(LegReceipt(Some(leg), PotsOf(b.accounts, b.rows[leg].account), true, b.rows[leg].amount, 0)))
  {
    assert FindKey(b.rows, p.key) == Some(leg);
  }

  /** Refunding a debit under its key returns all it holds to the durable pot, exactly when it holds something and the refund key is new. */
  lemma RefundPostsIff(b: Books, at: nat, key: string, kind: string, now: int)
    requires Sound(b) && IsDebit(b, at, key)
    ensures var after := RefundEffect(b, key, kind, now).0;
            var held := Open(b.rows, at);
            && (after != b <==> held > 0 && Unused(b.rows, "refund:" + key))
            && (after != b ==> ReturnsTo(b, after, at, held, 0, "refund:" + key, kind, now))
  {
    OpenIsNotNegative(b, at, key);
    if Unused(b.rows, RefundKey(key)) {
      LegPostedIff(b, at, LegParams(key, None, RefundKey(key), kind, 0, now));
    }
  }

  /** Reversing does the same, and gives the reported share back to the subscription pot. */
  lemma ReversePostsIff(b: Books, at: nat, key: string, share: Option<int>, kind: string, now: int)
    requires Sound(b) && IsDebit(b, at, key)
    ensures var (after, reply) := ReverseEffect(b, key, share, kind, now);
            var held := Open(b.rows, at);
            var wanted := if share.Some? then share.value else 0;
            && (after != b <==> held > 0 && Unused(b.rows, "refund:" + key))
            && (after != b ==> ReturnsTo(b, after, at, held, Min(Max(wanted, 0), held), "refund:" + key, kind, now))
            && (Unused(b.rows, "refund:" + key) ==> reply.Ok?)
  {
    OpenIsNotNegative(b, at, key);
    if Unused(b.rows, RefundKey(key)) {
      LegPostedIff(b, at, ReverseLeg(b.rows, at, key, share, kind, now));
    }
  }

  /** Settling returns all but the charge, the part of the share that the charge did not use to the subscription pot. */
  lemma SettlePostsRow(b: Books, at: nat, key: string, charge: int, share: int, kind: string, now: int)
    requires Sound(b) && IsDebit(b, at, key)
    ensures var (after, reply) := SettleEffect(b, key, charge, share, kind, now);
            var reserved := -b.rows[at].amount;
            var unused := reserved - charge;
            && (after != b <==>
                  0 <= charge && 0 < unused <= Open(b.rows, at) && Unused(b.rows, "refund:" + key + ":authz-settle"))
            && (after != b ==>
                  ReturnsTo(b, after, at, unused, Min(Max(share - charge, 0), unused), "refund:" + key + ":authz-settle", kind, now))
            && (charge < 0 <==> reply == Err(InvalidCharge))
            && (charge >= 0 ==> (charge > reserved <==> reply == Err(ExceedsReservation(reserved))))
  {
    OpenIsNotNegative(b, at, key);
    if 0 <= charge <= -b.rows[at].amount && Unused(b.rows, SettleKey(key)) {
      LegPostedIff(b, at, SettleLeg(b.rows, at, key, charge, share, kind, now));
    }
  }

  // ---------------------------------------------------------------------------
  // What a row does to the totals
  // ---------------------------------------------------------------------------

  lemma ReturnedAppend(rows: seq<Row>, row: Row, original: nat, refundsOnly: bool)
    ensures Returned(rows + [row], original, refundsOnly) ==
            Returned(rows, original, refundsOnly) +
            if row.reverses == Some(original) && row.amount > 0 && (refundsOnly ==> "refund" <= row.kind) then row.amount else 0
  {
    assert (rows + [row])[..|rows|] == rows;
  }

  lemma {:induction false} SpentByAccountAppend(rows: seq<Row>, row: Row, n: nat, account: string, since: int)
    requires n <= |rows|
    ensures SpentByAccount(rows + [row], n, account, since) ==
            SpentByAccount(rows, n, account, since) -
            if row.reverses.Some? && row.reverses.value < n && SpendsSince(rows[row.reverses.value], account, since) &&
               row.amount > 0 && "refund" <= row.kind then row.amount else 0
  {
    if n > 0 {
      SpentByAccountAppend(rows, row, n - 1, account, since);
      ReturnedAppend(rows, row, n - 1, true);
    }
  }

  lemma {:induction false} SpentInScopeAppend(rows: seq<Row>, row: Row, n: nat, prefix: string, since: int)
    requires n <= |rows|
    ensures SpentInScope(rows + [row], n, prefix, since) ==
            SpentInScope(rows, n, prefix, since) -
            if row.reverses.Some? && row.reverses.value < n && ScopedSince(rows[row.reverses.value], prefix, since) &&
               row.amount > 0 then row.amount else 0
  {
    if n > 0 {
      SpentInScopeAppend(rows, row, n - 1, prefix, since);
      ReturnedAppend(rows, row, n - 1, false);
    }
  }

  /**
   * A leg lowers the spend of the debit it returns by just its amount: the account's day only if
   * the leg's type is `refund...`, the scope's window whatever its type.
   */
  lemma LegLowersSpend(b: Books, after: Books, at: nat, amount: int, share: int, key: string, kind: string, now: int,
                       account: string, prefix: string, since: int)
    requires at < |b.rows| && amount > 0 && ReturnsTo(b, after, at, amount, share, key, kind, now)
    ensures SpentByAccount(after.rows, |after.rows|, account, since) ==
            SpentByAccount(b.rows, |b.rows|, account, since) -
            if SpendsSince(b.rows[at], account, since) && "refund" <= kind then amount else 0
    ensures SpentInScope(after.rows, |after.rows|, prefix, since) ==
            SpentInScope(b.rows, |b.rows|, prefix, since) - if ScopedSince(b.rows[at], prefix, since) then amount else 0
  {
    var row := Row(b.rows[at].account, amount, kind, Some(key), Some(at), now);
    SpentByAccountAppend(b.rows, row, |b.rows|, account, since);
    SpentInScopeAppend(b.rows, row, |b.rows|, prefix, since);
  }

  /** A debit that is applied raises the totals it belongs to by just its amount, and no others. */
  lemma DebitRaisesSpend(b: Books, p: DebitParams, account: string, prefix: string, since: int)
    requires Sound(b)
    requires var reply := DebitEffect(b, p).1; reply.Ok? && !reply.value.alreadyApplied
    ensures var rows := DebitEffect(b, p).0.rows;
            && SpentByAccount(rows, |rows|, account, since) ==
               SpentByAccount(b.rows, |b.rows|, account, since) +
               (if p.account == account && "spend" <= p.kind && p.now >= since then p.amount else 0)
            && SpentInScope(rows, |rows|, prefix, since) ==
               SpentInScope(b.rows, |b.rows|, prefix, since) +
               (if LikePrefix(prefix, p.key) && p.now >= since then p.amount else 0)
  {
    AppliedDebitPosts(b, p);
    var row := Row(p.account, -p.amount, p.kind, Some(p.key), None, p.now);
    SpentByAccountAppend(b.rows, row, |b.rows|, account, since);
    SpentInScopeAppend(b.rows, row, |b.rows|, prefix, since);
    NothingReturnedYet(b, row, true);
    NothingReturnedYet(b, row, false);
  }

  lemma NothingReturnedYet(b: Books, row: Row, refundsOnly: bool)
    requires Sound(b) && row.amount < 0
    ensures Returned(b.rows + [row], |b.rows|, refundsOnly) == 0
  {
    ReturnedAppend(b.rows, row, |b.rows|, refundsOnly);
    LaterRowsUnlinked(b.rows, |b.rows|);
    ReturnedWithinRefunded(b.rows, |b.rows|, refundsOnly);
  }

  lemma {:induction false} ReturnedWithinRefunded(rows: seq<Row>, original: nat, refundsOnly: bool)
    ensures 0 <= Returned(rows, original, refundsOnly) <= Refunded(rows, original)
  {
    if rows != [] {
      ReturnedWithinRefunded(rows[..|rows| - 1], original, refundsOnly);
    }
  }
}
