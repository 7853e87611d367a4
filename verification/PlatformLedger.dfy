/**
  The platform's own accounts, told by the rows: with the owner accounts of `PaymentsTheorems` this is every
  account there is. A platform account mixes currencies, so the sums run over rows of all of them.
 */
module PlatformLedger {
  import opened Outcomes
  import opened Sums
  import opened Money
  import opened LedgerTransactions
  import opened Ledger
  import opened EarningTable
  import opened Payments
  import opened PaymentsBooks
  import opened PaymentsInvariant
  import opened PaymentsTheorems

  function FeePaid(): Funding -> int
  {
    (row: Funding) => if row.status == Succeeded && row.reference.FromWallet? then row.fee else 0
  }

  function PaidFromOutside(): Funding -> int
  {
    (row: Funding) => if row.status == Succeeded && !row.reference.FromWallet? then row.amount else 0
  }

  function ToppedUpByAnyone(): TopUp -> int
  {
    (row: TopUp) => if row.status == Succeeded then row.amount else 0
  }

  function GivenBackToCard(): Refund -> int
  {
    (row: Refund) => if row.status == Succeeded && row.gatewayRefund.Some? then row.amount else 0
  }

  function PaidToAnyone(): WithdrawalRow -> int
  {
    (row: WithdrawalRow) => if row.status == Paid then row.amount else 0
  }

  lemma FundingOnPlatform(row: Funding, key: SystemKey, direction: Direction)
    ensures FundingHits(PlatformAccount(key), direction)(row) ==
            match (key, direction)
            case (PlatformFundingSource, Debit) => PaidFromOutside()(row)
            case (PlatformFeeRevenue, Credit) => FeePaid()(row)
            case _ => 0
  {
    if row.status == Succeeded {
      if row.reference.FromWallet? {
        WalletFundingMoves(row.organization, Money(row.amount, row.currency), Money(row.fee, row.currency),
                           PlatformAccount(key), direction);
      } else {
        SumOfPair(FundingRowPostings(row), Hit(PlatformAccount(key), direction));
      }
    }
  }

  lemma RefundOnPlatform(row: Refund, key: SystemKey, direction: Direction)
    ensures RefundHits(PlatformAccount(key), direction)(row)
            == if key == PlatformFundingSource && direction == Credit then GivenBackToCard()(row) else 0
  {
    if RefundRowPostings(row) != [] {
      SumOfPair(RefundRowPostings(row), Hit(PlatformAccount(key), direction));
    }
  }

  lemma TopUpOnPlatform(row: TopUp, key: SystemKey, direction: Direction)
    ensures TopUpHits(PlatformAccount(key), direction)(row)
            == if key == PlatformFundingSource && direction == Debit then ToppedUpByAnyone()(row) else 0
  {
    if TopUpRowPostings(row) != [] {
      SumOfPair(TopUpRowPostings(row), Hit(PlatformAccount(key), direction));
    }
  }

  lemma WithdrawalOnPlatform(row: WithdrawalRow, key: SystemKey, direction: Direction)
    ensures WithdrawalHits(PlatformAccount(key), direction)(row)
            == if key == PlatformPayoutSource && direction == Credit then PaidToAnyone()(row) else 0
  {
    if WithdrawalRowPostings(row) != [] {
      SumOfPair(WithdrawalRowPostings(row), Hit(PlatformAccount(key), direction));
    }
  }

  /** What the rows say of one side of one platform account. */
  function PlatformSide(db: Db, key: SystemKey, direction: Direction): int
  {
    match (key, direction)
    case (PlatformFundingSource, Debit) => Sum(db.fundings, PaidFromOutside()) + Sum(db.topUps, ToppedUpByAnyone())
    case (PlatformFundingSource, Credit) => Sum(db.refunds, GivenBackToCard())
    case (PlatformPayoutSource, Credit) => Sum(db.withdrawals, PaidToAnyone())
    case (PlatformFeeRevenue, Credit) => Sum(db.fundings, FeePaid())
    case _ => 0
  }

  lemma FundingsOnPlatform(fundings: seq<Funding>, key: SystemKey, direction: Direction)
    ensures Sum(fundings, FundingHits(PlatformAccount(key), direction)) ==
            match (key, direction)
            case (PlatformFundingSource, Debit) => Sum(fundings, PaidFromOutside())
            case (PlatformFeeRevenue, Credit) => Sum(fundings, FeePaid())
            case _ => 0
  {
    var hits := FundingHits(PlatformAccount(key), direction);
    forall i | 0 <= i < |fundings| ensures hits(fundings[i]) ==
        match (key, direction)
        case (PlatformFundingSource, Debit) => PaidFromOutside()(fundings[i])
        case (PlatformFeeRevenue, Credit) => FeePaid()(fundings[i])
        case _ => 0
    {
      FundingOnPlatform(fundings[i], key, direction);
    }
    match (key, direction)
    case (PlatformFundingSource, Debit) => SumSame(fundings, hits, PaidFromOutside());
    case (PlatformFeeRevenue, Credit) => SumSame(fundings, hits, FeePaid());
    case _ => SumZero(fundings, hits);
  }

  /** Sums of rows that all weigh the same as, or nothing beside, what they hold in one column. */
  lemma SumIf<T>(rows: seq<T>, hits: T -> int, column: T -> int, counts: bool)
    requires forall i :: 0 <= i < |rows| ==> hits(rows[i]) == if counts then column(rows[i]) else 0
    ensures Sum(rows, hits) == if counts then Sum(rows, column) else 0
  {
    if counts {
      SumSame(rows, hits, column);
    } else {
      SumZero(rows, hits);
    }
  }

  lemma OtherRowsOnPlatform(db: Db, key: SystemKey, direction: Direction)
    ensures Sum(db.refunds, RefundHits(PlatformAccount(key), direction))
            == if key == PlatformFundingSource && direction == Credit then Sum(db.refunds, GivenBackToCard()) else 0
    ensures Sum(db.topUps, TopUpHits(PlatformAccount(key), direction))
            == if key == PlatformFundingSource && direction == Debit then Sum(db.topUps, ToppedUpByAnyone()) else 0
    ensures Sum(db.withdrawals, WithdrawalHits(PlatformAccount(key), direction))
            == if key == PlatformPayoutSource && direction == Credit then Sum(db.withdrawals, PaidToAnyone()) else 0
  {
    forall row: Refund ensures RefundHits(PlatformAccount(key), direction)(row)
        == if key == PlatformFundingSource && direction == Credit then GivenBackToCard()(row) else 0
    {
      RefundOnPlatform(row, key, direction);
    }
    forall row: TopUp ensures TopUpHits(PlatformAccount(key), direction)(row)
        == if key == PlatformFundingSource && direction == Debit then ToppedUpByAnyone()(row) else 0
    {
      TopUpOnPlatform(row, key, direction);
    }
    forall row: WithdrawalRow ensures WithdrawalHits(PlatformAccount(key), direction)(row)
        == if key == PlatformPayoutSource && direction == Credit then PaidToAnyone()(row) else 0
    {
      WithdrawalOnPlatform(row, key, direction);
    }
    SumIf(db.refunds, RefundHits(PlatformAccount(key), direction), GivenBackToCard(),
          key == PlatformFundingSource && direction == Credit);
    SumIf(db.topUps, TopUpHits(PlatformAccount(key), direction), ToppedUpByAnyone(),
          key == PlatformFundingSource && direction == Debit);
    SumIf(db.withdrawals, WithdrawalHits(PlatformAccount(key), direction), PaidToAnyone(),
          key == PlatformPayoutSource && direction == Credit);
  }

  lemma PlatformSideAgrees(db: Db, key: SystemKey, direction: Direction)
    requires Books(db)
    ensures BookedSide(db, PlatformAccount(key), direction) == PlatformSide(db, key, direction)
  {
    var account := PlatformAccount(key);
    FundingsOnPlatform(db.fundings, key, direction);
    OtherRowsOnPlatform(db, key, direction);
    EmptyFilter(db.earnings, EarningSide(db.campaigns, account, direction));
    assert BookedSide(db, account, direction) == TableSide(db, account, direction);
  }

  /**
    Both sides of the three platform accounts, in the ledger and the lost lines together. Fee revenue has the
    fees of wallet payments and nothing against them; the payout source has what was paid out; the funding
    source has what came in from outside against what went back to cards.
   */
  lemma PlatformLedgerAgrees(db: Db)
    requires Reachable(db)
    ensures BookedSide(db, PlatformAccount(PlatformFeeRevenue), Credit) == Sum(db.fundings, FeePaid())
    ensures BookedSide(db, PlatformAccount(PlatformFeeRevenue), Debit) == 0
    ensures BookedSide(db, PlatformAccount(PlatformPayoutSource), Credit) == Sum(db.withdrawals, PaidToAnyone())
    ensures BookedSide(db, PlatformAccount(PlatformPayoutSource), Debit) == 0
    ensures BookedSide(db, PlatformAccount(PlatformFundingSource), Debit)
            == Sum(db.fundings, PaidFromOutside()) + Sum(db.topUps, ToppedUpByAnyone())
    ensures BookedSide(db, PlatformAccount(PlatformFundingSource), Credit) == Sum(db.refunds, GivenBackToCard())
  {
    ReachableKeeps(db);
    PlatformSideAgrees(db, PlatformFeeRevenue, Credit);
    PlatformSideAgrees(db, PlatformFeeRevenue, Debit);
    PlatformSideAgrees(db, PlatformPayoutSource, Credit);
    PlatformSideAgrees(db, PlatformPayoutSource, Debit);
    PlatformSideAgrees(db, PlatformFundingSource, Debit);
    PlatformSideAgrees(db, PlatformFundingSource, Credit);
  }
}
