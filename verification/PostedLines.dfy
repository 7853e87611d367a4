/**
  What the ledger's lines refer to. Every line, posted or lost, names a row that explains it; every settled row
  is posted or lost exactly once, under its own id; and the lines of a creator's earnings count up to the running
  total, each ending its reference in the total it leads to.
 */
module PostedLines {
  import opened Outcomes
  import opened Sums
  import opened Money
  import opened Entitlement
  import opened LedgerTransactions
  import opened Ledger
  import opened EarningTable
  import opened Payments
  import opened PaymentsInvariant
  import opened PaymentsTheorems
  import opened History
  import Settlement

  // What explains a line.

  predicate OneOfTwo(line: JournalLine, credited: AccountKey, debited: AccountKey, amount: Money)
  {
    line.amount == amount && line.account == if line.direction == Credit then credited else debited
  }

  predicate FundingLine(row: Funding, line: JournalLine)
  {
    && row.status == Succeeded && !row.reference.FromWallet?
    && OneOfTwo(line, Committed(row.organization, row.currency), PlatformAccount(PlatformFundingSource),
                Money(row.amount, row.currency))
  }

  predicate WalletPaymentLine(row: Funding, line: JournalLine)
  {
    && row.status == Succeeded && row.reference.FromWallet? && line.amount.currencyCode == row.currency
    && if line.direction == Debit then
         line.account == Wallet(row.organization, row.currency) && line.amount.amountMinor == row.amount + row.fee
       else if line.account == PlatformAccount(PlatformFeeRevenue) then
         line.amount.amountMinor == row.fee && 0 < row.fee
       else line.account == Committed(row.organization, row.currency) && line.amount.amountMinor == row.amount
  }

  predicate CardRefundLine(row: Refund, line: JournalLine)
  {
    && row.status == Succeeded && row.gatewayRefund.Some?
    && OneOfTwo(line, PlatformAccount(PlatformFundingSource), Committed(row.organization, row.currency),
                Money(row.amount, row.currency))
  }

  predicate ReturnLine(row: Refund, line: JournalLine)
  {
    && row.status == Succeeded && row.gatewayRefund.None?
    && OneOfTwo(line, Wallet(row.organization, row.currency), Committed(row.organization, row.currency),
                Money(row.amount, row.currency))
  }

  predicate TopUpLine(row: TopUp, line: JournalLine)
  {
    && row.status == Succeeded
    && OneOfTwo(line, Wallet(row.organization, row.currency), PlatformAccount(PlatformFundingSource),
                Money(row.amount, row.currency))
  }

  predicate PayoutLine(row: WithdrawalRow, line: JournalLine)
  {
    && row.status == Paid
    && OneOfTwo(line, PlatformAccount(PlatformPayoutSource), Earned(row.creator, row.currency),
                Money(row.amount, row.currency))
  }

  /** A credit of a campaign that has left the draft, and the total it led to. */
  predicate EarningLine(campaign: Campaign, creator: nat, line: JournalLine)
  {
    && campaign.status != Draft && 0 < line.amount.amountMinor
    && OneOfTwo(line, Earned(creator, campaign.currency), Committed(campaign.organization, campaign.currency),
                Money(line.amount.amountMinor, campaign.currency))
  }

  predicate ExplainedByRow(db: Db, line: JournalLine, id: nat)
  {
    match line.txType
    case CampaignFunding => id < |db.fundings| && FundingLine(db.fundings[id], line)
    case WalletFunding => id < |db.fundings| && WalletPaymentLine(db.fundings[id], line)
    case CampaignRefund => id < |db.refunds| && CardRefundLine(db.refunds[id], line)
    case WalletReturn => id < |db.refunds| && ReturnLine(db.refunds[id], line)
    case WalletTopUp => id < |db.topUps| && TopUpLine(db.topUps[id], line)
    case Withdrawal => id < |db.withdrawals| && PayoutLine(db.withdrawals[id], line)
    case EarningAccrual => false
  }

  predicate Explained(db: Db, line: JournalLine)
  {
    match line.reference
    case None => false
    case Some(RowReference(id)) => ExplainedByRow(db, line, id)
    case Some(EarningReference(c, creator, total)) =>
      line.txType == EarningAccrual && c < |db.campaigns| && EarningLine(db.campaigns[c], creator, line)
  }

  ghost predicate AllExplained(db: Db)
  {
    && (forall i :: 0 <= i < |db.journal| ==> Explained(db, db.journal[i]))
    && forall i :: 0 <= i < |db.unposted| ==> Explained(db, db.unposted[i])
  }

  // How often a row is posted.

  /** What one side of a row's posting comes to; nothing before the row is settled. */
  function RowAmount(db: Db, txType: TransactionType, id: nat): int
  {
    match txType
    case CampaignFunding =>
      if id < |db.fundings| && db.fundings[id].status == Succeeded && !db.fundings[id].reference.FromWallet?
      then db.fundings[id].amount else 0
    case WalletFunding =>
      if id < |db.fundings| && db.fundings[id].status == Succeeded && db.fundings[id].reference.FromWallet?
      then db.fundings[id].amount + db.fundings[id].fee else 0
    case CampaignRefund =>
      if id < |db.refunds| && db.refunds[id].status == Succeeded && db.refunds[id].gatewayRefund.Some?
      then db.refunds[id].amount else 0
    case WalletReturn =>
      if id < |db.refunds| && db.refunds[id].status == Succeeded && db.refunds[id].gatewayRefund.None?
      then db.refunds[id].amount else 0
    case WalletTopUp =>
      if id < |db.topUps| && db.topUps[id].status == Succeeded then db.topUps[id].amount else 0
    case Withdrawal =>
      if id < |db.withdrawals| && db.withdrawals[id].status == Paid then db.withdrawals[id].amount else 0
    case EarningAccrual => 0
  }

  /** One side of the lines of this type that refer to this row. */
  function OfRow(txType: TransactionType, id: nat, direction: Direction): JournalLine -> int
  {
    (line: JournalLine) =>
      if line.txType == txType && line.reference == Some(RowReference(id)) && line.direction == direction
      then line.amount.amountMinor else 0
  }

  function BookedFor(db: Db, txType: TransactionType, id: nat, direction: Direction): int
  {
    Sum(db.journal, OfRow(txType, id, direction)) + Sum(db.unposted, OfRow(txType, id, direction))
  }

  /** Each settled row is posted or lost once on each side, and no other row at all. */
  ghost predicate PostedOnce(db: Db)
  {
    forall txType, id: nat, direction :: BookedFor(db, txType, id, direction) == RowAmount(db, txType, id)
  }

  // How earnings count up.

  predicate IsCredit(line: JournalLine)
  {
    line.txType == EarningAccrual && line.direction == Credit
  }

  function CreditedTo(key: EarningKey): JournalLine -> int
  {
    (line: JournalLine) =>
      if IsCredit(line) && line.reference.Some? && line.reference.value.EarningReference?
         && line.reference.value.campaign == key.campaign && line.reference.value.creator == key.creator
      then line.amount.amountMinor else 0
  }

  /** The credit at `i` follows its debit and refers to the total of all credits up to it. */
  ghost predicate CountsUpAt(journal: seq<JournalLine>, i: nat)
    requires i < |journal|
  {
    && journal[i].reference.Some? && journal[i].reference.value.EarningReference?
    && (var reference := journal[i].reference.value;
        reference.total == Sum(journal[..i + 1], CreditedTo(EarningKey(reference.campaign, reference.creator))))
    && 0 < i && journal[i - 1].txType == EarningAccrual && journal[i - 1].direction == Debit
    && journal[i - 1].reference == journal[i].reference && journal[i - 1].amount == journal[i].amount
  }

  ghost predicate CountsUp(journal: seq<JournalLine>)
  {
    forall i :: 0 <= i < |journal| && IsCredit(journal[i]) ==> CountsUpAt(journal, i)
  }

  /** The credits posted for a creator in a campaign are the running total. */
  ghost predicate CountedAs(journal: seq<JournalLine>, totals: EarningKey -> int)
  {
    forall key :: Sum(journal, CreditedTo(key)) == totals(key)
  }

  function TotalsOf(rows: Earnings): EarningKey -> int
  {
    (key: EarningKey) => Accrued(rows, key)
  }

  ghost predicate Counted(db: Db)
  {
    CountsUp(db.journal) && CountedAs(db.journal, TotalsOf(db.earnings))
  }

  ghost predicate LinesOk(db: Db)
  {
    AllExplained(db) && PostedOnce(db) && Counted(db)
  }

  // Steps that post for one row, or for none.

  lemma ExplainedStays(before: Db, after: Db, line: JournalLine)
    requires Evolves(before, after) && Explained(before, line)
    ensures Explained(after, line)
  {
    match line.reference
    case Some(RowReference(id)) => RowStillExplains(before, after, line, id);
    case Some(EarningReference(c, creator, total)) =>
      assert CampaignEvolves(before.campaigns[c], after.campaigns[c]);
  }

  lemma RowStillExplains(before: Db, after: Db, line: JournalLine, id: nat)
    requires Evolves(before, after) && ExplainedByRow(before, line, id)
    ensures ExplainedByRow(after, line, id)
  {
    match line.txType
    case CampaignFunding => assert FundingEvolves(before.fundings[id], after.fundings[id]);
    case WalletFunding => assert FundingEvolves(before.fundings[id], after.fundings[id]);
    case WalletTopUp => assert TopUpEvolves(before.topUps[id], after.topUps[id]);
    case Withdrawal => assert WithdrawalEvolves(before.withdrawals[id], after.withdrawals[id]);
    case _ =>
  }

  lemma OldLinesExplained(before: Db, after: Db)
    requires AllExplained(before) && Evolves(before, after)
    ensures forall i :: 0 <= i < |before.journal| ==> Explained(after, after.journal[i])
    ensures forall i :: 0 <= i < |before.unposted| ==> Explained(after, after.unposted[i])
  {
    forall i | 0 <= i < |before.journal| ensures Explained(after, after.journal[i]) {
      ExplainedStays(before, after, before.journal[i]);
    }
    forall i | 0 <= i < |before.unposted| ensures Explained(after, after.unposted[i]) {
      ExplainedStays(before, after, before.unposted[i]);
    }
  }

  /** Lines of other types leave the count alone. */
  lemma OtherLinesKeepCount(journal: seq<JournalLine>, lines: seq<JournalLine>, totals: EarningKey -> int)
    requires CountsUp(journal) && CountedAs(journal, totals)
    requires forall i :: 0 <= i < |lines| ==> lines[i].txType != EarningAccrual
    ensures CountsUp(journal + lines) && CountedAs(journal + lines, totals)
  {
    forall key ensures Sum(journal + lines, CreditedTo(key)) == totals(key) {
      SumConcat(journal, lines, CreditedTo(key));
      SumZero(lines, CreditedTo(key));
    }
    OldCountStands(journal, lines);
  }

  lemma OldCountStands(journal: seq<JournalLine>, lines: seq<JournalLine>)
    requires CountsUp(journal)
    ensures forall i :: 0 <= i < |journal| && IsCredit(journal[i]) ==> CountsUpAt(journal + lines, i)
  {
    forall i | 0 <= i < |journal| && IsCredit(journal[i]) ensures CountsUpAt(journal + lines, i) {
      assert (journal + lines)[..i + 1] == journal[..i + 1];
      assert CountsUpAt(journal, i);
    }
  }

  lemma QuietKeepsLines(before: Db, after: Db)
    requires LinesOk(before) && Evolves(before, after)
    requires after.journal == before.journal && after.unposted == before.unposted
    requires after.earnings == before.earnings
    requires forall txType, id: nat :: RowAmount(after, txType, id) == RowAmount(before, txType, id)
    ensures LinesOk(after)
  {
    OldLinesExplained(before, after);
    forall txType, id: nat, direction
      ensures BookedFor(after, txType, id, direction) == RowAmount(after, txType, id)
    {
      assert BookedFor(before, txType, id, direction) == RowAmount(before, txType, id);
    }
  }

  function OnSide(direction: Direction): Posting -> int
  {
    (posting: Posting) => if posting.direction == direction then posting.amount.amountMinor else 0
  }

  lemma {:induction false} JournalledForRow(
    txType: TransactionType, id: nat, postings: seq<Posting>, otherType: TransactionType, other: nat,
    direction: Direction)
    ensures Sum(Journalled(txType, Some(RowReference(id)), postings), OfRow(otherType, other, direction))
            == if otherType == txType && other == id then Sum(postings, OnSide(direction)) else 0
  {
    if postings != [] {
      var n := |postings| - 1;
      JournalledForRow(txType, id, postings[..n], otherType, other, direction);
      assert Journalled(txType, Some(RowReference(id)), postings)[..n]
          == Journalled(txType, Some(RowReference(id)), postings[..n]);
    }
  }

  function LineOf(txType: TransactionType, id: nat, posting: Posting): JournalLine
  {
    JournalLine(txType, Some(RowReference(id)), KeyOf(posting.spec), posting.direction, posting.amount)
  }

  /** The row a posting is for gains exactly what the posting adds on each side, and no other row anything. */
  ghost predicate PostsFor(before: Db, after: Db, txType: TransactionType, id: nat, postings: seq<Posting>)
  {
    && (forall direction ::
          Sum(postings, OnSide(direction)) == RowAmount(after, txType, id) - RowAmount(before, txType, id))
    && forall otherType, other: nat :: otherType != txType || other != id ==>
         RowAmount(after, otherType, other) == RowAmount(before, otherType, other)
  }

  lemma PostKeepsPostedOnce(before: Db, middle: Db, throws: bool, txType: TransactionType, id: nat,
      postings: seq<Posting>, after: Db)
    requires PostedOnce(before) && middle.journal == before.journal && middle.unposted == before.unposted
    requires after == Post(middle, throws, txType, RowReference(id), postings)
    requires PostsFor(before, after, txType, id, postings)
    ensures PostedOnce(after)
  {
    var lines := Journalled(txType, Some(RowReference(id)), postings);
    forall otherType, other: nat, direction
      ensures BookedFor(after, otherType, other, direction) == RowAmount(after, otherType, other)
    {
      assert BookedFor(before, otherType, other, direction) == RowAmount(before, otherType, other);
      SumConcat(if throws then before.unposted else before.journal, lines, OfRow(otherType, other, direction));
      JournalledForRow(txType, id, postings, otherType, other, direction);
    }
  }

  lemma PostKeepsExplained(before: Db, middle: Db, throws: bool, txType: TransactionType, id: nat,
      postings: seq<Posting>, after: Db)
    requires AllExplained(before) && middle.journal == before.journal && middle.unposted == before.unposted
    requires after == Post(middle, throws, txType, RowReference(id), postings) && Evolves(before, after)
    requires forall i :: 0 <= i < |postings| ==> ExplainedByRow(after, LineOf(txType, id, postings[i]), id)
    ensures AllExplained(after)
  {
    var lines := Journalled(txType, Some(RowReference(id)), postings);
    OldLinesExplained(before, after);
    forall i | 0 <= i < |lines| ensures Explained(after, lines[i]) {
      assert lines[i] == LineOf(txType, id, postings[i]);
    }
  }

  lemma PostKeepsLines(before: Db, middle: Db, throws: bool, txType: TransactionType, id: nat,
      postings: seq<Posting>, after: Db)
    requires LinesOk(before) && middle.journal == before.journal && middle.unposted == before.unposted
    requires after == Post(middle, throws, txType, RowReference(id), postings) && Evolves(before, after)
    requires forall i :: 0 <= i < |postings| ==> ExplainedByRow(after, LineOf(txType, id, postings[i]), id)
    requires PostsFor(before, after, txType, id, postings)
    requires txType != EarningAccrual && after.earnings == before.earnings
    ensures LinesOk(after)
  {
    PostKeepsExplained(before, middle, throws, txType, id, postings, after);
    PostKeepsPostedOnce(before, middle, throws, txType, id, postings, after);
    OtherLinesKeepCount(before.journal, Journalled(txType, Some(RowReference(id)), postings),
                        TotalsOf(before.earnings));
  }
}
