/**
 * The two-pot manna ledger of packages/core/src/manna.ts.
 *
 * Amounts are integers in units of 10^-4 manna (the numeric(20,4) column), a transaction
 * row is named by its position in the append-only ledger, and each database transaction
 * is one atomic step.  Every operation is written twice: as a function from the old books
 * to the new books and the caller's reply, and as a method of `Ledger` that updates the
 * tables step by step and is proved to compute that function.
 */
module MannaLedger {
  import opened Prelude

  const DAY_MS := 86_400_000

  /** A `manna_accounts` row. */
  datatype Pots = Pots(subscription: int, durable: int)

  /** A `manna_transactions` row; debits are negative.  A missing type is the empty string. */
  datatype Row = Row(account: string, amount: int, kind: string, key: Option<string>,
                     reverses: Option<nat>, at: int)

  datatype Books = Books(accounts: map<string, Pots>, rows: seq<Row>)

  datatype Error =
    | InvalidAmount
    | InvalidScope
    | InvalidLimit
    | InvalidWindow
    | KeyOutsideScope
    | DailyCapExceeded(spent: int)
    | RollingCapExceeded(spent: int)
    | InsufficientManna(available: int)
    | DuplicateKey
    | NoReservation
    | NotADebit
    | LostAccount
    | ForeignReplay
    | AmountMismatch(applied: int)
    | InvalidRefund
    | ExceedsRemainder(refundable: int)
    | InvalidCharge
    | ExceedsReservation(reserved: int)

  /** Reply of debit, credit and refund. */
  datatype Receipt = Receipt(row: nat, pots: Pots, alreadyApplied: bool, subscriptionDrawn: Option<int>)

  /** Reply of a refund leg; `row` is None when nothing was refundable. */
  datatype LegReceipt = LegReceipt(row: Option<nat>, pots: Pots, alreadyApplied: bool, applied: int, remaining: int)

  datatype RollingCap = RollingCap(scope: string, scopeId: string, limit: int, windowMs: int)

  datatype DebitParams = DebitParams(account: string, amount: int, kind: string, key: string,
                                     dailyCap: Option<int>, rollingCap: Option<RollingCap>, now: int)

  datatype CreditParams = CreditParams(account: string, amount: int, kind: string, key: Option<string>,
                                       toSubscription: bool, now: int)

  datatype LegParams = LegParams(original: string, amount: Option<int>, key: string, kind: string,
                                 toSubscription: int, now: int)

  // ---------------------------------------------------------------------------
  // Keys
  // ---------------------------------------------------------------------------

  function RefundKey(key: string): string {
    "refund:" + key
  }

  function SettleKey(key: string): string {
    "refund:" + key + ":authz-settle"
  }

  predicate IsScopePart(s: string) {
    && 1 <= |s| <= 32
    && 'a' <= s[0] <= 'z'
    && forall i :: 1 <= i < |s| ==> 'a' <= s[i] <= 'z' || '0' <= s[i] <= '9' || s[i] == '-'
  }

  predicate IsScopeId(s: string) {
    && 1 <= |s| <= 128
    && forall i :: 0 <= i < |s| ==>
        'a' <= s[i] <= 'z' || 'A' <= s[i] <= 'Z' || '0' <= s[i] <= '9' || s[i] == '.' || s[i] == '_' || s[i] == '-'
  }

  function ScopePrefix(scope: string, scopeId: string): string {
    "budget:" + scope + ":" + scopeId + ":"
  }

  /** SQL `s LIKE pattern || '%'` for a pattern without `%`: an underscore matches any character. */
  predicate LikePrefix(pattern: string, s: string) {
    |pattern| <= |s| && forall i :: 0 <= i < |pattern| ==> pattern[i] == '_' || pattern[i] == s[i]
  }

  // ---------------------------------------------------------------------------
  // Reading the tables
  // ---------------------------------------------------------------------------

  function FindKey(rows: seq<Row>, key: string): (found: Option<nat>)
    ensures found.Some? ==> found.value < |rows| && rows[found.value].key == Some(key)
    ensures found.None? ==> forall i :: 0 <= i < |rows| ==> rows[i].key != Some(key)
  {
    if rows == [] then None
    else
      var n := |rows| - 1;
      if rows[n].key == Some(key) then Some(n) else FindKey(rows[..n], key)
  }

  function PotsOf(accounts: map<string, Pots>, account: string): Pots {
    if account in accounts then accounts[account] else Pots(0, 0)
  }

  function OpenAccount(accounts: map<string, Pots>, account: string): map<string, Pots> {
    if account in accounts then accounts else accounts[account := Pots(0, 0)]
  }

  /** Manna already given back against the debit at position `original`. */
  function Refunded(rows: seq<Row>, original: nat): int {
    if rows == [] then 0
    else
      var last := rows[|rows| - 1];
      Refunded(rows[..|rows| - 1], original) +
      if last.reverses == Some(original) && last.amount > 0 then last.amount else 0
  }

  /** The refund leg of `original` written last among those with the latest time. */
  function LatestLeg(rows: seq<Row>, original: nat): (found: Option<nat>)
    ensures found.Some? ==>
              && found.value < |rows|
              && rows[found.value].reverses == Some(original)
              && forall i :: 0 <= i < |rows| && rows[i].reverses == Some(original) ==> rows[i].at <= rows[found.value].at
    ensures found.None? ==> forall i :: 0 <= i < |rows| ==> rows[i].reverses != Some(original)
  {
    if rows == [] then None
    else
      var n := |rows| - 1;
      var before := LatestLeg(rows[..n], original);
      if rows[n].reverses == Some(original) && (before.None? || rows[before.value].at <= rows[n].at) then Some(n)
      else before
  }

  /**
   * The debits a spend total ranges over.  `Daily` and `Rolling` are the two queries the
   * ledger runs; `DayWindow` and `ScopeWindow` are the totals the caps are meant to bound.
   */
  datatype Query =
    | Daily(account: string, since: int)
    | Rolling(prefix: string, since: int)
    | DayWindow(account: string, start: int)
    | ScopeWindow(prefix: string, start: int, length: int)

  predicate Selects(q: Query, r: Row) {
    r.amount < 0 &&
    match q
    case Daily(account, since) => r.account == account && "spend" <= r.kind && since <= r.at
    case Rolling(prefix, since) => r.key.Some? && LikePrefix(prefix, r.key.value) && since <= r.at
    case DayWindow(account, start) => r.account == account && "spend" <= r.kind && start <= r.at < start + DAY_MS
    case ScopeWindow(prefix, start, length) => r.key.Some? && prefix <= r.key.value && start <= r.at <= start + length
  }

  predicate ByAccount(q: Query) {
    q.Daily? || q.DayWindow?
  }

  /** Which linked rows a query subtracts: the per-account queries look at the type as well. */
  predicate Offsets(q: Query, r: Row) {
    r.amount > 0 && (ByAccount(q) ==> "refund" <= r.kind)
  }

  function Offset(rows: seq<Row>, q: Query, original: nat): int {
    if rows == [] then 0
    else
      var last := rows[|rows| - 1];
      Offset(rows[..|rows| - 1], q, original) +
      if last.reverses == Some(original) && Offsets(q, last) then last.amount else 0
  }

  /** sum(greatest(-original.amount - linked refunds, 0)) over the first `n` rows. */
  function NetSpend(rows: seq<Row>, n: nat, q: Query): int
    requires n <= |rows|
  {
    if n == 0 then 0
    else
      NetSpend(rows, n - 1, q) +
      if Selects(q, rows[n - 1]) then Max(-rows[n - 1].amount - Offset(rows, q, n - 1), 0) else 0
  }

  function StartOfUtcDay(now: int): int {
    now - now % DAY_MS
  }

  // ---------------------------------------------------------------------------
  // Operations as functions on the books
  // ---------------------------------------------------------------------------

  function Post(b: Books, row: Row, pots: Pots): Books {
    Books(b.accounts[row.account := pots], b.rows + [row])
  }

  function Replay(b: Books, account: string, row: nat): Receipt {
    Receipt(row, PotsOf(b.accounts, account), true, None)
  }

  function CapRefusal(rows: seq<Row>, p: DebitParams): Option<Error> {
    if p.rollingCap.Some? && !(IsScopePart(p.rollingCap.value.scope) && IsScopeId(p.rollingCap.value.scopeId)) then
      Some(InvalidScope)
    else if p.rollingCap.Some? && p.rollingCap.value.limit < 0 then Some(InvalidLimit)
    else if p.rollingCap.Some? && p.rollingCap.value.windowMs <= 0 then Some(InvalidWindow)
    else if p.rollingCap.Some? && !(ScopePrefix(p.rollingCap.value.scope, p.rollingCap.value.scopeId) <= p.key) then
      Some(KeyOutsideScope)
    else
      var today := NetSpend(rows, |rows|, Daily(p.account, StartOfUtcDay(p.now)));
      if p.dailyCap.Some? && today + p.amount > p.dailyCap.value then Some(DailyCapExceeded(today))
      else if p.rollingCap.None? then None
      else
        var cap := p.rollingCap.value;
        var spent := NetSpend(rows, |rows|, Rolling(ScopePrefix(cap.scope, cap.scopeId), p.now - cap.windowMs));
        if spent + p.amount > cap.limit then Some(RollingCapExceeded(spent)) else None
  }

  /** Subscription pot first, durable pot for the rest. */
  function Drain(pots: Pots, amount: int): (left: Pots)
    ensures left.subscription + left.durable == pots.subscription + pots.durable - amount
    ensures pots.subscription >= 0 && pots.durable >= 0 && 0 <= amount <= pots.subscription + pots.durable ==>
              && left.subscription >= 0 && left.durable >= 0
              && (left.durable < pots.durable ==> left.subscription == 0)
  {
    Pots(Max(pots.subscription - amount, 0), pots.durable - Max(amount - pots.subscription, 0))
  }

  function DebitEffect(b: Books, p: DebitParams): (Books, Result<Receipt, Error>) {
    var existing := FindKey(b.rows, p.key);
    if p.amount <= 0 then (b, Err(InvalidAmount))
    else if existing.Some? then (b, Ok(Replay(b, p.account, existing.value)))
    else if CapRefusal(b.rows, p).Some? then (b, Err(CapRefusal(b.rows, p).value))
    else
      var pots := PotsOf(b.accounts, p.account);
      if pots.subscription + pots.durable < p.amount then (b, Err(InsufficientManna(pots.subscription + pots.durable)))
      else
        var left := Drain(pots, p.amount);
        (Post(b, Row(p.account, -p.amount, p.kind, Some(p.key), None, p.now), left),
         Ok(Receipt(|b.rows|, left, false, Some(Min(pots.subscription, p.amount)))))
  }

  function TopUp(pots: Pots, amount: int, toSubscription: bool): (topped: Pots)
    ensures topped.subscription + topped.durable == pots.subscription + pots.durable + amount
    ensures if toSubscription then topped.durable == pots.durable else topped.subscription == pots.subscription
  {
    if toSubscription then Pots(pots.subscription + amount, pots.durable) else Pots(pots.subscription, pots.durable + amount)
  }

  function CreditEffect(b: Books, p: CreditParams): (Books, Result<Receipt, Error>) {
    // An empty key is falsy in the lookup but still written to the unique column.
    var existing := if p.key.Some? then FindKey(b.rows, p.key.value) else None;
    if p.amount <= 0 then (b, Err(InvalidAmount))
    else if existing.Some? && |p.key.value| > 0 then (b, Ok(Replay(b, p.account, existing.value)))
    else if existing.Some? then (b, Err(DuplicateKey))
    else
      var pots := PotsOf(b.accounts, p.account);
      var topped := TopUp(pots, p.amount, p.toSubscription);
      (Post(b, Row(p.account, p.amount, p.kind, p.key, None, p.now), topped),
       Ok(Receipt(|b.rows|, topped, false, None)))
  }

  function LegEffect(b: Books, p: LegParams): (Books, Result<Option<LegReceipt>, Error>) {
    var original := FindKey(b.rows, p.original);
    var existing := FindKey(b.rows, p.key);
    if existing.Some? then
      var leg := b.rows[existing.value];
      if original.Some? && leg.reverses != original then (b, Err(ForeignReplay))
      else if p.amount.Some? && leg.amount != p.amount.value then (b, Err(AmountMismatch(leg.amount)))
      else
        var left := if original.Some? then -b.rows[original.value].amount - Refunded(b.rows, original.value) else 0;
        (b, Ok(Some(LegReceipt(existing, PotsOf(b.accounts, leg.account), true, leg.amount, Max(0, left)))))
    else if original.None? then (b, Ok(None))
    else
      var debit := b.rows[original.value];
      var refundable := Max(0, -debit.amount - Refunded(b.rows, original.value));
      var amount := if p.amount.Some? then p.amount.value else refundable;
      var pots := PotsOf(b.accounts, debit.account);
      if debit.amount >= 0 then (b, Err(NotADebit))
      else if amount < 0 then (b, Err(InvalidRefund))
      else if amount > refundable then (b, Err(ExceedsRemainder(refundable)))
      else if amount == 0 then (b, Ok(Some(LegReceipt(None, pots, false, 0, refundable))))
      else if debit.account !in b.accounts then (b, Err(LostAccount))
      else
        var toSubscription := Min(Max(p.toSubscription, 0), amount);
        var restored := Pots(pots.subscription + toSubscription, pots.durable + (amount - toSubscription));
        (Post(b, Row(debit.account, amount, p.kind, Some(p.key), original, p.now), restored),
         Ok(Some(LegReceipt(Some(|b.rows|), restored, false, amount, refundable - amount))))
  }

  function RefundEffect(b: Books, key: string, kind: string, now: int): (Books, Result<Option<Receipt>, Error>) {
    var (after, reply) := LegEffect(b, LegParams(key, None, RefundKey(key), kind, 0, now));
    match reply
    case Err(e) => (after, Err(e))
    case Ok(None) => (after, Ok(None))
    case Ok(Some(leg)) =>
      if leg.row.Some? then (after, Ok(Some(Receipt(leg.row.value, leg.pots, leg.alreadyApplied, None))))
      else
        var original := FindKey(after.rows, key);
        var latest := if original.Some? then LatestLeg(after.rows, original.value) else None;
        (after, Ok(if latest.Some? then Some(Replay(after, after.rows[latest.value].account, latest.value)) else None))
  }

  function Required(reply: (Books, Result<Option<LegReceipt>, Error>)): (Books, Result<LegReceipt, Error>) {
    match reply.1
    case Err(e) => (reply.0, Err(e))
    case Ok(None) => (reply.0, Err(NoReservation))
    case Ok(Some(leg)) => (reply.0, Ok(leg))
  }

  /** The leg that settling at `charge` requests: the unused part, subscription share first. */
  function SettleLeg(rows: seq<Row>, original: nat, key: string, charge: int, reservedSubscription: int, kind: string, now: int): LegParams
    requires original < |rows|
  {
    var unusedSubscription := Max(0, reservedSubscription - Min(reservedSubscription, charge));
    LegParams(key, Some(-rows[original].amount - charge), SettleKey(key), kind, unusedSubscription, now)
  }

  function SettleEffect(b: Books, key: string, charge: int, reservedSubscription: int, kind: string, now: int)
    : (Books, Result<LegReceipt, Error>)
  {
    var original := FindKey(b.rows, key);
    if charge < 0 then (b, Err(InvalidCharge))
    else if original.None? then (b, Err(NoReservation))
    else if charge > -b.rows[original.value].amount then (b, Err(ExceedsReservation(-b.rows[original.value].amount)))
    else Required(LegEffect(b, SettleLeg(b.rows, original.value, key, charge, reservedSubscription, kind, now)))
  }

  /** The leg that reversing requests: everything still held, if anything is. */
  function ReverseLeg(rows: seq<Row>, original: nat, key: string, reservedSubscription: Option<int>, kind: string, now: int): LegParams
    requires original < |rows|
  {
    var remainder := Max(0, -rows[original].amount - Refunded(rows, original));
    var share := if reservedSubscription.Some? then reservedSubscription.value else 0;
    LegParams(key, if remainder > 0 then Some(remainder) else None, RefundKey(key), kind, Min(share, remainder), now)
  }

  function ReverseEffect(b: Books, key: string, reservedSubscription: Option<int>, kind: string, now: int)
    : (Books, Result<LegReceipt, Error>)
  {
    var original := FindKey(b.rows, key);
    if original.None? then (b, Err(NoReservation))
    else Required(LegEffect(b, ReverseLeg(b.rows, original.value, key, reservedSubscription, kind, now)))
  }

  // ---------------------------------------------------------------------------
  // Runs
  // ---------------------------------------------------------------------------

  datatype Call =
    | DebitCall(debit: DebitParams)
    | CreditCall(credit: CreditParams)
    | RefundCall(key: string, kind: string, now: int)
    | SettleCall(key: string, charge: int, share: int, kind: string, now: int)
    | ReverseCall(key: string, known: Option<int>, kind: string, now: int)

  function Step(b: Books, c: Call): Books {
    match c
    case DebitCall(p) => DebitEffect(b, p).0
    case CreditCall(p) => CreditEffect(b, p).0
    case RefundCall(key, kind, now) => RefundEffect(b, key, kind, now).0
    case SettleCall(key, charge, share, kind, now) => SettleEffect(b, key, charge, share, kind, now).0
    case ReverseCall(key, known, kind, now) => ReverseEffect(b, key, known, kind, now).0
  }

  predicate ReceiptIdle(reply: Result<Receipt, Error>) {
    reply.Err? || reply.value.alreadyApplied
  }

  predicate RefundIdle(reply: Result<Option<Receipt>, Error>) {
    reply.Err? || reply.value.None? || reply.value.value.alreadyApplied
  }

  predicate LegIdle(reply: Result<LegReceipt, Error>) {
    reply.Err? || reply.value.alreadyApplied || reply.value.applied == 0
  }

  /** What the caller is told: true when the call failed, was a replay, or had nothing to return. */
  predicate Idle(b: Books, c: Call) {
    match c
    case DebitCall(p) => ReceiptIdle(DebitEffect(b, p).1)
    case CreditCall(p) => ReceiptIdle(CreditEffect(b, p).1)
    case RefundCall(key, kind, now) => RefundIdle(RefundEffect(b, key, kind, now).1)
    case SettleCall(key, charge, share, kind, now) => LegIdle(SettleEffect(b, key, charge, share, kind, now).1)
    case ReverseCall(key, known, kind, now) => LegIdle(ReverseEffect(b, key, known, kind, now).1)
  }

  function Run(b: Books, calls: seq<Call>): Books
    decreases |calls|
  {
    if calls == [] then b else Run(Step(b, calls[0]), calls[1..])
  }

  // ---------------------------------------------------------------------------
  // The tables and the operations that update them
  // ---------------------------------------------------------------------------

  class Ledger {
    var accounts: map<string, Pots>
    var rows: seq<Row>

    constructor ()
      ensures View() == Books(map[], [])
    {
      accounts, rows := map[], [];
    }

    function View(): Books
      reads this
    {
      Books(accounts, rows)
    }

    method CheckCaps(p: DebitParams) returns (refusal: Option<Error>)
      ensures refusal == CapRefusal(rows, p)
    {
      if p.rollingCap.Some? {
        var cap := p.rollingCap.value;
        if !IsScopePart(cap.scope) || !IsScopeId(cap.scopeId) {
          return Some(InvalidScope);
        }
        if cap.limit < 0 {
          return Some(InvalidLimit);
        }
        if cap.windowMs <= 0 {
          return Some(InvalidWindow);
        }
        if !(ScopePrefix(cap.scope, cap.scopeId) <= p.key) {
          return Some(KeyOutsideScope);
        }
      }
      if p.dailyCap.Some? {
        var spentToday := NetSpend(rows, |rows|, Daily(p.account, StartOfUtcDay(p.now)));
        if spentToday + p.amount > p.dailyCap.value {
          return Some(DailyCapExceeded(spentToday));
        }
      }
      if p.rollingCap.Some? {
        var cap := p.rollingCap.value;
        var spent := NetSpend(rows, |rows|, Rolling(ScopePrefix(cap.scope, cap.scopeId), p.now - cap.windowMs));
        if spent + p.amount > cap.limit {
          return Some(RollingCapExceeded(spent));
        }
      }
      refusal := None;
    }

    method Debit(p: DebitParams) returns (reply: Result<Receipt, Error>)
      modifies this
      ensures (View(), reply) == DebitEffect(old(View()), p)
    {
      if p.amount <= 0 {
        return Err(InvalidAmount);
      }
      var existing := FindKey(rows, p.key);
      if existing.Some? {
        return Ok(Receipt(existing.value, PotsOf(accounts, p.account), true, None));
      }
      var holders := OpenAccount(accounts, p.account);
      var refusal := CheckCaps(p);
      if refusal.Some? {
        return Err(refusal.value);
      }
      var pots := holders[p.account];
      if pots.durable + pots.subscription < p.amount {
        return Err(InsufficientManna(pots.subscription + pots.durable));
      }
      var left := Pots(Max(pots.subscription - p.amount, 0), pots.durable - Max(p.amount - pots.subscription, 0));
      accounts := holders[p.account := left];
      assert accounts == old(accounts)[p.account := left];
      rows := rows + [Row(p.account, -p.amount, p.kind, Some(p.key), None, p.now)];
      reply := Ok(Receipt(|rows| - 1, left, false, Some(Min(pots.subscription, p.amount))));
    }

    method Credit(p: CreditParams) returns (reply: Result<Receipt, Error>)
      modifies this
      ensures (View(), reply) == CreditEffect(old(View()), p)
    {
      if p.amount <= 0 {
        return Err(InvalidAmount);
      }
      if p.key.Some? && |p.key.value| > 0 {
        var existing := FindKey(rows, p.key.value);
        if existing.Some? {
          return Ok(Receipt(existing.value, PotsOf(accounts, p.account), true, None));
        }
      }
      var holders := OpenAccount(accounts, p.account);
      var pots := holders[p.account];
      if p.toSubscription {
        pots := Pots(pots.subscription + p.amount, pots.durable);
      } else {
        pots := Pots(pots.subscription, pots.durable + p.amount);
      }
      if p.key.Some? && FindKey(rows, p.key.value).Some? {
        return Err(DuplicateKey); // the unique index refuses the insert and the transaction rolls back
      }
      accounts := holders[p.account := pots];
      assert accounts == old(accounts)[p.account := pots];
      rows := rows + [Row(p.account, p.amount, p.kind, p.key, None, p.now)];
      reply := Ok(Receipt(|rows| - 1, pots, false, None));
    }

    method RefundLeg(p: LegParams) returns (reply: Result<Option<LegReceipt>, Error>)
      modifies this
      ensures (View(), reply) == LegEffect(old(View()), p)
    {
      var original := FindKey(rows, p.original);
      var existing := FindKey(rows, p.key);
      if existing.Some? {
        var leg := rows[existing.value];
        if original.Some? && leg.reverses != Some(original.value) {
          return Err(ForeignReplay);
        }
        if p.amount.Some? && leg.amount != p.amount.value {
          return Err(AmountMismatch(leg.amount));
        }
        var remaining := 0;
        if original.Some? {
          remaining := -rows[original.value].amount - Refunded(rows, original.value);
        }
        return Ok(Some(LegReceipt(existing, PotsOf(accounts, leg.account), true, leg.amount, Max(0, remaining))));
      }
      if original.None? {
        return Ok(None);
      }
      var debit := rows[original.value];
      if debit.amount >= 0 {
        return Err(NotADebit);
      }
      var refundable := Max(0, -debit.amount - Refunded(rows, original.value));
      var amount := refundable;
      if p.amount.Some? {
        amount := p.amount.value;
      }
      if amount < 0 {
        return Err(InvalidRefund);
      }
      if amount > refundable {
        return Err(ExceedsRemainder(refundable));
      }
      if amount == 0 {
        return Ok(Some(LegReceipt(None, PotsOf(accounts, debit.account), false, 0, refundable)));
      }
      if debit.account !in accounts {
        return Err(LostAccount);
      }
      var toSubscription := Min(Max(p.toSubscription, 0), amount);
      var toDurable := amount - toSubscription;
      var pots := accounts[debit.account];
      pots := Pots(pots.subscription + toSubscription, pots.durable + toDurable);
      accounts := accounts[debit.account := pots];
      rows := rows + [Row(debit.account, amount, p.kind, Some(p.key), original, p.now)];
      reply := Ok(Some(LegReceipt(Some(|rows| - 1), pots, false, amount, refundable - amount)));
    }

    method Refund(key: string, kind: string, now: int) returns (reply: Result<Option<Receipt>, Error>)
      modifies this
      ensures (View(), reply) == RefundEffect(old(View()), key, kind, now)
    {
      var leg := RefundLeg(LegParams(key, None, RefundKey(key), kind, 0, now));
      if leg.Err? {
        return Err(leg.error);
      }
      if leg.value.None? {
        return Ok(None);
      }
      var done := leg.value.value;
      if done.row.None? {
        var original := FindKey(rows, key);
        if original.None? {
          return Ok(None);
        }
        var latest := LatestLeg(rows, original.value);
        if latest.None? {
          return Ok(None);
        }
        return Ok(Some(Receipt(latest.value, PotsOf(accounts, rows[latest.value].account), true, None)));
      }
      reply := Ok(Some(Receipt(done.row.value, done.pots, done.alreadyApplied, None)));
    }

    method SettleReservation(key: string, charge: int, reservedSubscription: int, kind: string, now: int)
      returns (reply: Result<LegReceipt, Error>)
      modifies this
      ensures (View(), reply) == SettleEffect(old(View()), key, charge, reservedSubscription, kind, now)
    {
      if charge < 0 {
        return Err(InvalidCharge);
      }
      var original := FindKey(rows, key);
      if original.None? {
        return Err(NoReservation);
      }
      var reserved := -rows[original.value].amount;
      if charge > reserved {
        return Err(ExceedsReservation(reserved));
      }
      var chargeSubscription := Min(reservedSubscription, charge);
      var unusedSubscription := Max(0, reservedSubscription - chargeSubscription);
      var unused := reserved - charge;
      var leg := RefundLeg(LegParams(key, Some(unused), SettleKey(key), kind, unusedSubscription, now));
      match leg {
        case Err(e) => reply := Err(e);
        case Ok(None) => reply := Err(NoReservation);
        case Ok(Some(done)) => reply := Ok(done);
      }
    }

    method ReverseReservation(key: string, reservedSubscription: Option<int>, kind: string, now: int)
      returns (reply: Result<LegReceipt, Error>)
      modifies this
      ensures (View(), reply) == ReverseEffect(old(View()), key, reservedSubscription, kind, now)
    {
      var original := FindKey(rows, key);
      if original.None? {
        return Err(NoReservation);
      }
      var reserved := -rows[original.value].amount;
      var remainder := Max(0, reserved - Refunded(rows, original.value));
      var share := 0;
      if reservedSubscription.Some? {
        share := reservedSubscription.value;
      }
      var amount := None;
      if remainder > 0 {
        amount := Some(remainder);
      }
      var leg := RefundLeg(LegParams(key, amount, RefundKey(key), kind, Min(share, remainder), now));
      match leg {
        case Err(e) => reply := Err(e);
        case Ok(None) => reply := Err(NoReservation);
        case Ok(Some(done)) => reply := Ok(done);
      }
    }
  }
}
