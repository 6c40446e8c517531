/**
 * What every ledger operation keeps, over whole runs: solvency, conservation, bounded
 * refunds, and the irrelevance of calls that were told nothing happened.
 */
module LedgerInvariants {
  import opened Prelude
  import opened MannaLedger

  // ---------------------------------------------------------------------------
  // The invariant
  // ---------------------------------------------------------------------------

  ghost predicate UniqueKeys(rows: seq<Row>) {
    forall i, j :: 0 <= i < j < |rows| && rows[i].key.Some? ==> rows[i].key != rows[j].key
  }

  /** A linked row is a credit to an earlier keyed debit of the same account, under one of its two leg keys. */
  ghost predicate GoodLink(rows: seq<Row>, row: Row, position: nat) {
    row.reverses.Some? ==>
      var original := row.reverses.value;
      && original < position
      && original < |rows|
      && row.amount > 0
      && rows[original].amount < 0
      && rows[original].account == row.account
      && rows[original].key.Some?
      && (row.key == Some(RefundKey(rows[original].key.value)) || row.key == Some(SettleKey(rows[original].key.value)))
  }

  ghost predicate GoodLinks(rows: seq<Row>) {
    forall i :: 0 <= i < |rows| ==> GoodLink(rows, rows[i], i)
  }

  /** Linked refunds of a debit never exceed it. */
  ghost predicate RefundsBounded(rows: seq<Row>) {
    forall original :: 0 <= original < |rows| && rows[original].amount < 0 ==>
      Refunded(rows, original) <= -rows[original].amount
  }

  predicate IsReversalOf(rows: seq<Row>, leg: Row, original: nat)
    requires original < |rows|
  {
    leg.reverses == Some(original) && rows[original].key.Some? && leg.key == Some(RefundKey(rows[original].key.value))
  }

  /** A linked row under `refund:<key>` is written only when it returns everything still held. */
  ghost predicate ReversalsAreFull(rows: seq<Row>) {
    forall i, original :: 0 <= original < i < |rows| && IsReversalOf(rows, rows[i], original) ==>
      Refunded(rows, original) == -rows[original].amount
  }

  ghost predicate Solvent(accounts: map<string, Pots>) {
    forall a :: a in accounts ==> accounts[a].subscription >= 0 && accounts[a].durable >= 0
  }

  ghost predicate RowsHeld(b: Books) {
    forall i :: 0 <= i < |b.rows| ==> b.rows[i].account in b.accounts && b.rows[i].amount != 0
  }

  ghost predicate Sound(b: Books) {
    && UniqueKeys(b.rows)
    && RowsHeld(b)
    && GoodLinks(b.rows)
    && RefundsBounded(b.rows)
    && ReversalsAreFull(b.rows)
    && Solvent(b.accounts)
  }

  // ---------------------------------------------------------------------------
  // Posting one row
  // ---------------------------------------------------------------------------

  ghost predicate LegFits(rows: seq<Row>, row: Row) {
    row.reverses.Some? ==>
      && GoodLink(rows, row, |rows|)
      && var original := row.reverses.value;
         var held := -rows[original].amount - Refunded(rows, original);
         && row.amount <= held
         && (IsReversalOf(rows, row, original) ==> row.amount == held)
  }

  function Holding(accounts: map<string, Pots>, account: string): int {
    PotsOf(accounts, account).subscription + PotsOf(accounts, account).durable
  }

  ghost predicate GoodPost(b: Books, row: Row, pots: Pots) {
    && (row.key.Some? ==> forall i :: 0 <= i < |b.rows| ==> b.rows[i].key != row.key)
    && row.amount != 0
    && LegFits(b.rows, row)
    && pots.subscription >= 0
    && pots.durable >= 0
    && pots.subscription + pots.durable == Holding(b.accounts, row.account) + row.amount
  }

  lemma RefundedAppend(rows: seq<Row>, row: Row, original: nat)
    ensures Refunded(rows + [row], original) ==
            Refunded(rows, original) + if row.reverses == Some(original) && row.amount > 0 then row.amount else 0
  {
    assert (rows + [row])[..|rows|] == rows;
  }

  lemma {:induction false} UnlinkedNotRefunded(rows: seq<Row>, original: nat)
    requires forall i :: 0 <= i < |rows| ==> rows[i].reverses != Some(original)
    ensures Refunded(rows, original) == 0
  {
    if rows != [] {
      UnlinkedNotRefunded(rows[..|rows| - 1], original);
    }
  }

  lemma LaterRowsUnlinked(rows: seq<Row>, original: nat)
    requires GoodLinks(rows) && original >= |rows|
    ensures Refunded(rows, original) == 0
  {
    forall i | 0 <= i < |rows|
      ensures rows[i].reverses != Some(original)
    {
      assert GoodLink(rows, rows[i], i);
    }
    UnlinkedNotRefunded(rows, original);
  }

  lemma GoodLinksAppend(rows: seq<Row>, row: Row)
    requires GoodLinks(rows) && GoodLink(rows, row, |rows|)
    ensures GoodLinks(rows + [row])
  {
    forall i | 0 <= i < |rows| + 1
      ensures GoodLink(rows + [row], (rows + [row])[i], i)
    {
      if i < |rows| {
        assert GoodLink(rows, rows[i], i);
      }
    }
  }

  lemma RefundsBoundedAppend(rows: seq<Row>, row: Row)
    requires GoodLinks(rows) && RefundsBounded(rows) && LegFits(rows, row)
    ensures RefundsBounded(rows + [row])
  {
    var more := rows + [row];
    forall original | 0 <= original < |more| && more[original].amount < 0
      ensures Refunded(more, original) <= -more[original].amount
    {
      RefundedAppend(rows, row, original);
      if original == |rows| {
        LaterRowsUnlinked(rows, original);
      }
    }
  }

  lemma ReversalsAreFullAppend(rows: seq<Row>, row: Row)
    requires GoodLinks(rows) && RefundsBounded(rows) && ReversalsAreFull(rows) && LegFits(rows, row)
    ensures ReversalsAreFull(rows + [row])
  {
    var more := rows + [row];
    forall i, original | 0 <= original < i < |more| && IsReversalOf(more, more[i], original)
      ensures Refunded(more, original) == -more[original].amount
    {
      RefundedAppend(rows, row, original);
      if i < |rows| {
        // A row appended later cannot be a further leg: nothing is left to return.
        assert IsReversalOf(rows, rows[i], original);
      } else {
        assert IsReversalOf(rows, row, original);
      }
    }
  }

  lemma UniqueKeysAppend(rows: seq<Row>, row: Row)
    requires UniqueKeys(rows)
    requires row.key.Some? ==> forall i :: 0 <= i < |rows| ==> rows[i].key != row.key
    ensures UniqueKeys(rows + [row])
  {
  }

  lemma PostKeepsSolvent(b: Books, row: Row, pots: Pots)
    requires Solvent(b.accounts) && RowsHeld(b) && row.amount != 0
    requires pots.subscription >= 0 && pots.durable >= 0
    ensures Solvent(Post(b, row, pots).accounts) && RowsHeld(Post(b, row, pots))
  {
  }

  lemma PostKeepsSound(b: Books, row: Row, pots: Pots)
    requires Sound(b) && GoodPost(b, row, pots)
    ensures Sound(Post(b, row, pots))
  {
    var after := Post(b, row, pots);
    assert UniqueKeys(after.rows) by { UniqueKeysAppend(b.rows, row); }
    assert Solvent(after.accounts) && RowsHeld(after) by { PostKeepsSolvent(b, row, pots); }
    assert GoodLinks(after.rows) by { GoodLinksAppend(b.rows, row); }
    assert RefundsBounded(after.rows) by { RefundsBoundedAppend(b.rows, row); }
    assert ReversalsAreFull(after.rows) by { ReversalsAreFullAppend(b.rows, row); }
  }

  // ---------------------------------------------------------------------------
  // Every call posts at most one good row
  // ---------------------------------------------------------------------------

  ghost predicate Posts(b: Books, after: Books, row: Row, pots: Pots) {
    GoodPost(b, row, pots) && after == Post(b, row, pots)
  }

  function DebitRow(p: DebitParams): Row {
    Row(p.account, -p.amount, p.kind, Some(p.key), None, p.now)
  }

  lemma DebitPosts(b: Books, p: DebitParams) returns (pots: Pots)
    requires Solvent(b.accounts)
    ensures var (after, reply) := DebitEffect(b, p);
            if ReceiptIdle(reply) then after == b else Posts(b, after, DebitRow(p), pots)
  {
    pots := Drain(PotsOf(b.accounts, p.account), p.amount);
  }

  lemma CreditPosts(b: Books, p: CreditParams) returns (pots: Pots)
    requires Solvent(b.accounts)
    ensures var (after, reply) := CreditEffect(b, p);
            if ReceiptIdle(reply) then after == b
            else Posts(b, after, Row(p.account, p.amount, p.kind, p.key, None, p.now), pots)
  {
    var (after, reply) := CreditEffect(b, p);
    pots := if reply.Ok? then reply.value.pots else Pots(0, 0);
  }

  /** Legs are only ever requested under the two derived keys, and under `refund:<key>` for everything held. */
  ghost predicate LegRequest(rows: seq<Row>, p: LegParams) {
    && (p.key == RefundKey(p.original) || p.key == SettleKey(p.original))
    && (p.key == RefundKey(p.original) && p.amount.Some? && FindKey(rows, p.original).Some? ==>
          var original := FindKey(rows, p.original).value;
          p.amount.value == -rows[original].amount - Refunded(rows, original))
  }

  lemma KeysDiffer(key: string)
    ensures RefundKey(key) != SettleKey(key)
  {
    assert |SettleKey(key)| > |RefundKey(key)|;
  }

  predicate NoLeg(reply: Result<Option<LegReceipt>, Error>) {
    reply.Err? || reply.value.None? || reply.value.value.alreadyApplied || reply.value.value.applied == 0
  }

  lemma LegPosts(b: Books, p: LegParams) returns (row: Row, pots: Pots)
    requires Sound(b) && LegRequest(b.rows, p)
    ensures var (after, reply) := LegEffect(b, p);
            if NoLeg(reply) then after == b else Posts(b, after, row, pots) && row.reverses == FindKey(b.rows, p.original)
  {
    var (after, reply) := LegEffect(b, p);
    row, pots := Row("", 0, "", None, None, 0), Pots(0, 0);
    if !NoLeg(reply) {
      var original := FindKey(b.rows, p.original).value;
      row := after.rows[|b.rows|];
      pots := reply.value.value.pots;
      assert b.accounts[b.rows[original].account].subscription >= 0;
      KeysDiffer(p.original);
    }
  }

  lemma SettlePosts(b: Books, key: string, charge: int, share: int, kind: string, now: int) returns (row: Row, pots: Pots)
    requires Sound(b)
    ensures var (after, reply) := SettleEffect(b, key, charge, share, kind, now);
            if LegIdle(reply) then after == b else Posts(b, after, row, pots) && row.reverses == FindKey(b.rows, key)
  {
    var original := FindKey(b.rows, key);
    row, pots := Row("", 0, "", None, None, 0), Pots(0, 0);
    if original.Some? {
      KeysDiffer(key);
      row, pots := LegPosts(b, SettleLeg(b.rows, original.value, key, charge, share, kind, now));
    }
  }

  lemma ReversePosts(b: Books, key: string, known: Option<int>, kind: string, now: int) returns (row: Row, pots: Pots)
    requires Sound(b)
    ensures var (after, reply) := ReverseEffect(b, key, known, kind, now);
            if LegIdle(reply) then after == b else Posts(b, after, row, pots) && row.reverses == FindKey(b.rows, key)
  {
    var original := FindKey(b.rows, key);
    row, pots := Row("", 0, "", None, None, 0), Pots(0, 0);
    if original.Some? {
      row, pots := LegPosts(b, ReverseLeg(b.rows, original.value, key, known, kind, now));
    }
  }

  lemma RefundPosts(b: Books, key: string, kind: string, now: int) returns (row: Row, pots: Pots)
    requires Sound(b)
    ensures var (after, reply) := RefundEffect(b, key, kind, now);
            if RefundIdle(reply) then after == b else Posts(b, after, row, pots) && row.reverses == FindKey(b.rows, key)
  {
    row, pots := LegPosts(b, LegParams(key, None, RefundKey(key), kind, 0, now));
  }

  /** A call whose reply says nothing happened leaves the books alone; any other posts one good row. */
  lemma CallPosts(b: Books, c: Call) returns (row: Row, pots: Pots)
    requires Sound(b)
    ensures if Idle(b, c) then Step(b, c) == b else Posts(b, Step(b, c), row, pots)
    ensures c.DebitCall? ==> row == DebitRow(c.debit)
    ensures !Idle(b, c) && c.CreditCall? ==> row.amount > 0 && row.reverses == None
    ensures !Idle(b, c) && !c.DebitCall? && !c.CreditCall? ==> row.reverses == FindKey(b.rows, c.key)
  {
    match c
    case DebitCall(p) =>
      row := DebitRow(p);
      pots := DebitPosts(b, p);
    case CreditCall(p) =>
      row := Row(p.account, p.amount, p.kind, p.key, None, p.now);
      pots := CreditPosts(b, p);
    case RefundCall(key, kind, now) => row, pots := RefundPosts(b, key, kind, now);
    case SettleCall(key, charge, share, kind, now) => row, pots := SettlePosts(b, key, charge, share, kind, now);
    case ReverseCall(key, known, kind, now) => row, pots := ReversePosts(b, key, known, kind, now);
  }

  // ---------------------------------------------------------------------------
  // Whole runs
  // ---------------------------------------------------------------------------

  lemma StepKeepsSound(b: Books, c: Call)
    requires Sound(b)
    ensures Sound(Step(b, c)) && b.rows <= Step(b, c).rows
  {
    var row, pots := CallPosts(b, c);
    if !Idle(b, c) {
      PostKeepsSound(b, row, pots);
    }
  }

  /** Over every run the ledger only grows and the invariant holds at the end. */
  lemma {:induction false} RunKeepsSound(b: Books, calls: seq<Call>)
    requires Sound(b)
    ensures Sound(Run(b, calls)) && b.rows <= Run(b, calls).rows
    decreases |calls|
  {
    if calls != [] {
      StepKeepsSound(b, calls[0]);
      RunKeepsSound(Step(b, calls[0]), calls[1..]);
    }
  }

  function Entries(rows: seq<Row>, account: string): int {
    if rows == [] then 0
    else
      var last := rows[|rows| - 1];
      Entries(rows[..|rows| - 1], account) + if last.account == account then last.amount else 0
  }

  lemma EntriesAppend(rows: seq<Row>, row: Row, account: string)
    ensures Entries(rows + [row], account) == Entries(rows, account) + if row.account == account then row.amount else 0
  {
    assert (rows + [row])[..|rows|] == rows;
  }

  /** What an account holds beyond what the ledger recorded for it. */
  function Unrecorded(b: Books, account: string): int {
    Holding(b.accounts, account) - Entries(b.rows, account)
  }

  lemma PostConserves(b: Books, row: Row, pots: Pots, account: string)
    requires GoodPost(b, row, pots)
    ensures Unrecorded(Post(b, row, pots), account) == Unrecorded(b, account)
  {
    EntriesAppend(b.rows, row, account);
  }

  /** One call changes what an account holds by exactly what it records for it. */
  lemma StepConserves(b: Books, c: Call, account: string)
    requires Sound(b)
    ensures Unrecorded(Step(b, c), account) == Unrecorded(b, account)
  {
    var row, pots := CallPosts(b, c);
    if !Idle(b, c) {
      PostConserves(b, row, pots, account);
    }
  }

  lemma {:induction false} RunConserves(b: Books, calls: seq<Call>, account: string)
    requires Sound(b)
    ensures Unrecorded(Run(b, calls), account) == Unrecorded(b, account)
    decreases |calls|
  {
    if calls != [] {
      StepKeepsSound(b, calls[0]);
      StepConserves(b, calls[0], account);
      RunConserves(Step(b, calls[0]), calls[1..], account);
    }
  }

  /**
   * From any opening balances, after any run: both pots are non-negative and their sum is the
   * opening total plus everything the ledger recorded for the account.
   */
  lemma BalancesMatchLedger(opening: map<string, Pots>, calls: seq<Call>, account: string)
    requires Solvent(opening)
    ensures var after := Run(Books(opening, []), calls);
            && PotsOf(after.accounts, account).subscription >= 0
            && PotsOf(after.accounts, account).durable >= 0
            && Holding(after.accounts, account) ==
               (if account in opening then opening[account].subscription + opening[account].durable else 0) + Entries(after.rows, account)
  {
    RunKeepsSound(Books(opening, []), calls);
    RunConserves(Books(opening, []), calls, account);
  }

  /** The run with every call that was told nothing happened taken out. */
  function Effective(b: Books, calls: seq<Call>): seq<Call>
    decreases |calls|
  {
    if calls == [] then []
    else (if Idle(b, calls[0]) then [] else [calls[0]]) + Effective(Step(b, calls[0]), calls[1..])
  }

  /** Deleting every failed, replayed or empty call from a run changes neither accounts nor ledger. */
  lemma {:induction false} IdleCallsAreRedundant(b: Books, calls: seq<Call>)
    requires Sound(b)
    ensures Run(b, Effective(b, calls)) == Run(b, calls)
    ensures |Run(b, calls).rows| == |b.rows| + |Effective(b, calls)|
    decreases |calls|
  {
    if calls != [] {
      var c, rest := calls[0], Effective(Step(b, calls[0]), calls[1..]);
      var row, pots := CallPosts(b, c);
      StepKeepsSound(b, c);
      IdleCallsAreRedundant(Step(b, c), calls[1..]);
      if !Idle(b, c) {
        assert ([c] + rest)[1..] == rest;
      } else {
        assert [] + rest == rest;
      }
    }
  }

  /**
   * Once a row under `refund:<key>` is linked to a debit, the debit is fully returned for good:
   * after any further run, settling, reversing or refunding it moves nothing.
   */
  lemma ReversedIsFinal(b: Books, leg: nat, original: nat, calls: seq<Call>, c: Call)
    requires Sound(b) && original < leg < |b.rows| && IsReversalOf(b.rows, b.rows[leg], original)
    requires c.SettleCall? || c.ReverseCall? || c.RefundCall?
    requires Some(c.key) == b.rows[original].key
    ensures var after := Run(b, calls);
            && b.rows <= after.rows
            && Refunded(after.rows, original) == -after.rows[original].amount
            && Step(after, c) == after
  {
    RunKeepsSound(b, calls);
    var after := Run(b, calls);
    assert IsReversalOf(after.rows, after.rows[leg], original);
    assert after.rows[original].key == Some(c.key);
    assert FindKey(after.rows, c.key) == Some(original);
    var row, pots := CallPosts(after, c);
  }

  /** A keyed debit or credit is applied at most once: after it, the same key never posts again. */
  lemma KeyPostsOnce(b: Books, used: nat, key: string, calls: seq<Call>, c: Call)
    requires Sound(b) && used < |b.rows| && b.rows[used].key == Some(key)
    requires (c.DebitCall? && c.debit.key == key) || (c.CreditCall? && c.credit.key == Some(key))
    ensures Step(Run(b, calls), c) == Run(b, calls)
  {
    RunKeepsSound(b, calls);
    var after := Run(b, calls);
    assert after.rows[used].key == Some(key);
    var row, pots := CallPosts(after, c);
  }

  /**
   * Repeating a keyed credit, after any run since: it is answered as the replay it is exactly when
   * the key is not empty, and refused by the unique index exactly when it is.
   */
  lemma CreditReplaysIffKeyNotEmpty(b: Books, used: nat, key: string, calls: seq<Call>, p: CreditParams)
    requires Sound(b) && used < |b.rows| && b.rows[used].key == Some(key)
    requires p.key == Some(key) && p.amount > 0
    ensures var reply := CreditEffect(Run(b, calls), p).1;
            && (reply.Ok? <==> key != "")
            && (reply.Ok? ==> reply.value.alreadyApplied && reply.value.row == used)
            && (reply == Err(DuplicateKey) <==> key == "")
  {
    RunKeepsSound(b, calls);
    var after := Run(b, calls);
    assert after.rows[used].key == Some(key);
    assert FindKey(after.rows, key).Some?;
  }

  /** The failing input: the same credit under the empty key twice on empty books. */
  lemma EmptyKeyIsRefused(account: string, now: int)
    ensures var p := CreditParams(account, 1, "credit", Some(""), false, now);
            var once := CreditEffect(Books(map[], []), p);
            && once.1.Ok? && |once.0.rows| == 1
            && CreditEffect(once.0, p) == (once.0, Err(DuplicateKey))
  {
    var p := CreditParams(account, 1, "credit", Some(""), false, now);
    assert FindKey([], "").None?;
    var once := CreditEffect(Books(map[], []), p);
    assert once.0.rows == [Row(account, 1, "credit", Some(""), None, now)];
    assert FindKey(once.0.rows, "") == Some(0);
  }

  /** `refund` answers null exactly when neither the debit nor its refund key is in the ledger. */
  lemma RefundNullIffUnknown(b: Books, key: string, kind: string, now: int)
    requires Sound(b)
    ensures RefundEffect(b, key, kind, now).1 == Ok(None) <==>
            FindKey(b.rows, key).None? && FindKey(b.rows, RefundKey(key)).None?
  {
    var original := FindKey(b.rows, key);
    if original.Some? && b.rows[original.value].amount < 0 && LatestLeg(b.rows, original.value).None? {
      UnlinkedNotRefunded(b.rows, original.value);
    }
  }

  // ---------------------------------------------------------------------------
  // The clamps in the spend queries
  // ---------------------------------------------------------------------------

  lemma {:induction false} OffsetWithinRefunded(rows: seq<Row>, q: Query, original: nat)
    ensures 0 <= Offset(rows, q, original) <= Refunded(rows, original)
  {
    if rows != [] {
      OffsetWithinRefunded(rows[..|rows| - 1], q, original);
    }
  }

  /** The same total written without `greatest(..., 0)`. */
  function PlainNetSpend(rows: seq<Row>, n: nat, q: Query): int
    requires n <= |rows|
  {
    if n == 0 then 0
    else
      PlainNetSpend(rows, n - 1, q) +
      if Selects(q, rows[n - 1]) then -rows[n - 1].amount - Offset(rows, q, n - 1) else 0
  }

  lemma {:induction false} ClampsNeverBind(b: Books, n: nat, q: Query)
    requires Sound(b) && n <= |b.rows|
    ensures NetSpend(b.rows, n, q) == PlainNetSpend(b.rows, n, q)
  {
    if n > 0 {
      ClampsNeverBind(b, n - 1, q);
      OffsetWithinRefunded(b.rows, q, n - 1);
      if b.rows[n - 1].amount < 0 {
        assert Refunded(b.rows, n - 1) <= -b.rows[n - 1].amount;
      }
    }
  }
}
