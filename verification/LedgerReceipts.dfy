/** What callers are told is what the books hold: balances, row ids, shares and remainders. */
module LedgerReceipts {
  import opened Prelude
  import opened MannaLedger
  import opened LedgerInvariants

  /** The receipt names the one row under the key and shows the account's pots as they now stand. */
  predicate NamesRow(after: Books, receipt: Receipt, key: string, account: string) {
    && FindKey(after.rows, key) == Some(receipt.row)
    && receipt.pots == PotsOf(after.accounts, account)
  }

  lemma NewestIsFound(rows: seq<Row>, row: Row)
    requires row.key.Some?
    ensures FindKey(rows + [row], row.key.value) == Some(|rows|)
  {
  }

  /**
   * A debit that succeeds is in the ledger under its key; when it was applied by this very call,
   * the reported subscription share and the rest are what the two pots lost, and the durable pot
   * was touched only once the subscription pot was empty.
   */
  lemma DebitReceiptIsTrue(b: Books, p: DebitParams)
    requires Sound(b) && DebitEffect(b, p).1.Ok?
    ensures var (after, reply) := DebitEffect(b, p);
            && NamesRow(after, reply.value, p.key, p.account)
            && (reply.value.alreadyApplied <==> FindKey(b.rows, p.key).Some?)
            && (!reply.value.alreadyApplied ==>
                  var before, left := PotsOf(b.accounts, p.account), PotsOf(after.accounts, p.account);
                  && after.rows[reply.value.row].amount == -p.amount
                  && reply.value.subscriptionDrawn == Some(before.subscription - left.subscription)
                  && before.subscription - left.subscription + before.durable - left.durable == p.amount
                  && (left.durable != before.durable ==> left.subscription == 0))
  {
    var after := DebitEffect(b, p).0;
    if FindKey(b.rows, p.key).None? {
      assert after.rows[|b.rows|].key == Some(p.key);
      assert PotsOf(b.accounts, p.account).subscription >= 0;
    }
  }

  /** The same for a keyed credit, and the pot that was not named keeps its balance. */
  lemma CreditReceiptIsTrue(b: Books, p: CreditParams)
    requires Sound(b) && CreditEffect(b, p).1.Ok?
    ensures var (after, reply) := CreditEffect(b, p);
            && (p.key.Some? ==> NamesRow(after, reply.value, p.key.value, p.account))
            && (!reply.value.alreadyApplied ==>
                  var before, topped := PotsOf(b.accounts, p.account), PotsOf(after.accounts, p.account);
                  && after.rows[reply.value.row].amount == p.amount
                  && if p.toSubscription then topped == Pots(before.subscription + p.amount, before.durable)
                     else topped == Pots(before.subscription, before.durable + p.amount))
  {
    if p.key.None? || FindKey(b.rows, p.key.value).None? {
      var topped := TopUp(PotsOf(b.accounts, p.account), p.amount, p.toSubscription);
      var row := Row(p.account, p.amount, p.kind, p.key, None, p.now);
      assert CreditEffect(b, p) == (Post(b, row, topped), Ok(Receipt(|b.rows|, topped, false, None)));
      if p.key.Some? {
        NewestIsFound(b.rows, row);
      }
    }
  }

  /**
   * The reply to a leg of a known debit: `remaining` is what the ledger still holds of it after
   * the call, `applied` what the row under the leg's key gives back, and the pots are those of
   * the debited account.
   */
  lemma LegReceiptIsTrue(b: Books, p: LegParams)
    requires Sound(b) && FindKey(b.rows, p.original).Some?
    requires LegEffect(b, p).1.Ok? && LegEffect(b, p).1.value.Some?
    ensures var (after, reply) := LegEffect(b, p);
            var original, receipt := FindKey(b.rows, p.original).value, reply.value.value;
            && receipt.remaining == -after.rows[original].amount - Refunded(after.rows, original)
            && receipt.pots == PotsOf(after.accounts, after.rows[original].account)
            && receipt.row == FindKey(after.rows, p.key)
            && receipt.applied == if receipt.row.Some? then after.rows[receipt.row.value].amount else 0
  {
    var (after, reply) := LegEffect(b, p);
    var original, existing := FindKey(b.rows, p.original).value, FindKey(b.rows, p.key);
    if existing.Some? {
      assert GoodLink(b.rows, b.rows[existing.value], existing.value);
    } else if !NoLeg(reply) {
      assert after.rows[|b.rows|].key == Some(p.key);
      RefundedAppend(b.rows, after.rows[|b.rows|], original);
    }
  }
}
