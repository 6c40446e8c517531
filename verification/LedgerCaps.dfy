/**
 * The daily and rolling spend caps, over whole runs.  A cap is checked only at debits and
 * only against debits at or after a lower bound, yet it bounds every window of its length.
 */
module LedgerCaps {
  import opened Prelude
  import opened MannaLedger
  import opened LedgerInvariants

  // ---------------------------------------------------------------------------
  // Comparing spend totals
  // ---------------------------------------------------------------------------

  lemma OffsetAppend(rows: seq<Row>, row: Row, q: Query, original: nat)
    ensures Offset(rows + [row], q, original) ==
            Offset(rows, q, original) + if row.reverses == Some(original) && Offsets(q, row) then row.amount else 0
  {
    assert (rows + [row])[..|rows|] == rows;
  }

  /** Appending a row never raises the net of earlier debits, and leaves it alone unless it refunds a selected one. */
  lemma {:induction false} NetSpendAppend(rows: seq<Row>, row: Row, n: nat, q: Query)
    requires n <= |rows|
    ensures NetSpend(rows + [row], n, q) <= NetSpend(rows, n, q)
    ensures (row.reverses.Some? && row.reverses.value < n ==> !Selects(q, rows[row.reverses.value])) ==>
              NetSpend(rows + [row], n, q) == NetSpend(rows, n, q)
  {
    if n > 0 {
      NetSpendAppend(rows, row, n - 1, q);
      OffsetAppend(rows, row, q, n - 1);
    }
  }

  lemma {:induction false} SameOffset(rows: seq<Row>, narrow: Query, wide: Query, original: nat)
    requires ByAccount(narrow) == ByAccount(wide)
    ensures Offset(rows, narrow, original) == Offset(rows, wide, original)
  {
    if rows != [] {
      SameOffset(rows[..|rows| - 1], narrow, wide, original);
    }
  }

  /** A query that selects more debits totals at least as much. */
  lemma {:induction false} NetSpendMonotone(rows: seq<Row>, n: nat, narrow: Query, wide: Query)
    requires n <= |rows| && ByAccount(narrow) == ByAccount(wide)
    requires forall i :: 0 <= i < n && Selects(narrow, rows[i]) ==> Selects(wide, rows[i])
    ensures NetSpend(rows, n, narrow) <= NetSpend(rows, n, wide)
  {
    if n > 0 {
      NetSpendMonotone(rows, n - 1, narrow, wide);
      SameOffset(rows, narrow, wide, n - 1);
    }
  }

  /** A new debit adds at most its own amount to a total that selects it. */
  lemma NetSpendNewDebit(rows: seq<Row>, row: Row, q: Query)
    requires row.amount < 0 && row.reverses == None
    ensures NetSpend(rows + [row], |rows| + 1, q) <= NetSpend(rows, |rows|, q) + if Selects(q, row) then -row.amount else 0
  {
    NetSpendAppend(rows, row, |rows|, q);
    OffsetAppend(rows, row, q, |rows|);
    OffsetNonNegative(rows, q, |rows|);
  }

  lemma {:induction false} OffsetNonNegative(rows: seq<Row>, q: Query, original: nat)
    ensures Offset(rows, q, original) >= 0
  {
    if rows != [] {
      OffsetNonNegative(rows[..|rows| - 1], q, original);
    }
  }

  /** Any other row selects nothing, so no total rises. */
  lemma NetSpendNewCredit(rows: seq<Row>, row: Row, q: Query)
    requires row.amount > 0
    ensures NetSpend(rows + [row], |rows| + 1, q) <= NetSpend(rows, |rows|, q)
  {
    NetSpendAppend(rows, row, |rows|, q);
  }

  /** Returning an older debit frees no room: totals over later debits do not move. */
  lemma OldRefundFreesNothing(b: Books, c: Call, q: Query)
    requires Sound(b) && !Idle(b, c)
    requires c.RefundCall? || c.SettleCall? || c.ReverseCall?
    requires var original := FindKey(b.rows, c.key); original.Some? ==> !Selects(q, b.rows[original.value])
    ensures NetSpend(Step(b, c).rows, |Step(b, c).rows|, q) == NetSpend(b.rows, |b.rows|, q)
  {
    var row, pots := CallPosts(b, c);
    assert row.amount > 0;
    NetSpendAppend(b.rows, row, |b.rows|, q);
  }

  // ---------------------------------------------------------------------------
  // The rolling cap
  // ---------------------------------------------------------------------------

  /** Every window of length `cap.windowMs`, wherever it starts, holds at most `cap.limit` net of refunds. */
  ghost predicate ScopeBounded(rows: seq<Row>, cap: RollingCap) {
    forall start :: NetSpend(rows, |rows|, ScopeWindow(ScopePrefix(cap.scope, cap.scopeId), start, cap.windowMs)) <= cap.limit
  }

  /** Debits whose key lies in the scope all carry this cap. */
  predicate ScopeDisciplined(c: Call, cap: RollingCap) {
    c.DebitCall? && ScopePrefix(cap.scope, cap.scopeId) <= c.debit.key ==> c.debit.rollingCap == Some(cap)
  }

  lemma PrefixIsLike(prefix: string, s: string)
    requires prefix <= s
    ensures LikePrefix(prefix, s)
  {
  }

  /** The LIKE query counts exactly the keys of the scope for every ledger only when no underscore is in the prefix. */
  lemma LikeIsExactIffNoUnderscore(prefix: string)
    ensures (forall s: string :: LikePrefix(prefix, s) <==> prefix <= s) <==> '_' !in prefix
  {
    if '_' in prefix {
      var i :| 0 <= i < |prefix| && prefix[i] == '_';
      var other := prefix[i := 'x'];
      assert LikePrefix(prefix, other) && other[i] != prefix[i];
    }
  }

  lemma ScopedDebitKeepsBound(b: Books, p: DebitParams, cap: RollingCap, start: int)
    requires Sound(b) && p.rollingCap == Some(cap) && !ReceiptIdle(DebitEffect(b, p).1)
    requires ScopeBounded(b.rows, cap)
    ensures NetSpend(b.rows + [DebitRow(p)], |b.rows| + 1, ScopeWindow(ScopePrefix(cap.scope, cap.scopeId), start, cap.windowMs)) <= cap.limit
  {
    var prefix := ScopePrefix(cap.scope, cap.scopeId);
    var window, checked := ScopeWindow(prefix, start, cap.windowMs), Rolling(prefix, p.now - cap.windowMs);
    NetSpendNewDebit(b.rows, DebitRow(p), window);
    if Selects(window, DebitRow(p)) {
      assert CapRefusal(b.rows, p).None?;
      forall i | 0 <= i < |b.rows| && Selects(window, b.rows[i])
        ensures Selects(checked, b.rows[i])
      {
        PrefixIsLike(prefix, b.rows[i].key.value);
      }
      NetSpendMonotone(b.rows, |b.rows|, window, checked);
    }
  }

  lemma StepKeepsScopeBounded(b: Books, c: Call, cap: RollingCap)
    requires Sound(b) && ScopeBounded(b.rows, cap) && ScopeDisciplined(c, cap)
    ensures ScopeBounded(Step(b, c).rows, cap)
  {
    var row, pots := CallPosts(b, c);
    if !Idle(b, c) {
      forall start
        ensures NetSpend(b.rows + [row], |b.rows| + 1, ScopeWindow(ScopePrefix(cap.scope, cap.scopeId), start, cap.windowMs)) <= cap.limit
      {
        var window := ScopeWindow(ScopePrefix(cap.scope, cap.scopeId), start, cap.windowMs);
        if row.amount > 0 {
          NetSpendNewCredit(b.rows, row, window);
        } else if c.DebitCall? && c.debit.rollingCap == Some(cap) {
          ScopedDebitKeepsBound(b, c.debit, cap, start);
        } else {
          NetSpendNewDebit(b.rows, row, window);
        }
      }
    }
  }

  /**
   * If every debit of a scope carries the same rolling cap, then after any run every window of
   * the cap's length holds at most the cap, whatever clock values the calls carried.
   */
  lemma {:induction false} RollingCapBoundsEveryWindow(b: Books, calls: seq<Call>, cap: RollingCap)
    requires Sound(b) && ScopeBounded(b.rows, cap)
    requires forall i :: 0 <= i < |calls| ==> ScopeDisciplined(calls[i], cap)
    ensures ScopeBounded(Run(b, calls).rows, cap)
    decreases |calls|
  {
    if calls != [] {
      StepKeepsSound(b, calls[0]);
      StepKeepsScopeBounded(b, calls[0], cap);
      RollingCapBoundsEveryWindow(Step(b, calls[0]), calls[1..], cap);
    }
  }

  // ---------------------------------------------------------------------------
  // The daily cap
  // ---------------------------------------------------------------------------

  /** Every UTC day holds at most `limit` of the account's `spend...` debits, net of `refund...` rows. */
  ghost predicate DaysBounded(rows: seq<Row>, account: string, limit: int) {
    forall day :: NetSpend(rows, |rows|, DayWindow(account, day * DAY_MS)) <= limit
  }

  predicate DayDisciplined(c: Call, account: string, limit: int) {
    c.DebitCall? && c.debit.account == account && "spend" <= c.debit.kind ==> c.debit.dailyCap == Some(limit)
  }

  lemma StartOfDayIsTheDay(now: int, day: int)
    requires day * DAY_MS <= now < day * DAY_MS + DAY_MS
    ensures StartOfUtcDay(now) == day * DAY_MS
  {
  }

  lemma DailyDebitKeepsBound(b: Books, p: DebitParams, limit: int, start: int)
    requires p.dailyCap == Some(limit) && !ReceiptIdle(DebitEffect(b, p).1)
    requires NetSpend(b.rows, |b.rows|, DayWindow(p.account, start)) <= limit
    requires start <= p.now < start + DAY_MS ==> StartOfUtcDay(p.now) == start
    ensures NetSpend(b.rows + [DebitRow(p)], |b.rows| + 1, DayWindow(p.account, start)) <= limit
  {
    var window, checked := DayWindow(p.account, start), Daily(p.account, StartOfUtcDay(p.now));
    NetSpendNewDebit(b.rows, DebitRow(p), window);
    if Selects(window, DebitRow(p)) {
      assert CapRefusal(b.rows, p).None?;
      NetSpendMonotone(b.rows, |b.rows|, window, checked);
    }
  }

  lemma StepKeepsDaysBounded(b: Books, c: Call, account: string, limit: int)
    requires Sound(b) && DaysBounded(b.rows, account, limit) && DayDisciplined(c, account, limit)
    ensures DaysBounded(Step(b, c).rows, account, limit)
  {
    var row, pots := CallPosts(b, c);
    if !Idle(b, c) {
      forall day
        ensures NetSpend(b.rows + [row], |b.rows| + 1, DayWindow(account, day * DAY_MS)) <= limit
      {
        var window := DayWindow(account, day * DAY_MS);
        if row.amount > 0 {
          NetSpendNewCredit(b.rows, row, window);
        } else if c.DebitCall? && c.debit.account == account && c.debit.dailyCap == Some(limit) {
          var start := day * DAY_MS;
          if start <= c.debit.now < start + DAY_MS {
            StartOfDayIsTheDay(c.debit.now, day);
          }
          DailyDebitKeepsBound(b, c.debit, limit, start);
        } else {
          NetSpendNewDebit(b.rows, row, window);
        }
      }
    }
  }

  /** With a constant daily cap on an account's `spend...` debits, every UTC day stays within it over every run. */
  lemma {:induction false} DailyCapBoundsEveryDay(b: Books, calls: seq<Call>, account: string, limit: int)
    requires Sound(b) && DaysBounded(b.rows, account, limit)
    requires forall i :: 0 <= i < |calls| ==> DayDisciplined(calls[i], account, limit)
    ensures DaysBounded(Run(b, calls).rows, account, limit)
    decreases |calls|
  {
    if calls != [] {
      StepKeepsSound(b, calls[0]);
      StepKeepsDaysBounded(b, calls[0], account, limit);
      DailyCapBoundsEveryDay(Step(b, calls[0]), calls[1..], account, limit);
    }
  }
}
