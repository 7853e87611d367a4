/**
  The same facts are stored twice, as table rows and as ledger entries. `Books` says the two agree but for the
  postings that threw: each side of each account, platform accounts included, is in the ledger and in the lost
  lines together what the rows add up to. The lemmas show that every change of a row keeps this, row by row.
 */
module PaymentsBooks {
  import opened Outcomes
  import opened Sums
  import opened Money
  import opened Entitlement
  import opened LedgerTransactions
  import opened Ledger
  import opened EarningTable
  import opened Payments
  import Settlement

  // What each kind of row stands for on an account.

  function Hits(postings: seq<Posting>, account: AccountKey, direction: Direction): int
  {
    Sum(postings, Hit(account, direction))
  }

  function FundingRowPostings(row: Funding): seq<Posting>
  {
    if row.status != Succeeded then []
    else if row.reference.FromWallet? then
      WalletFundingPostings(row.organization, Money(row.amount, row.currency), Money(row.fee, row.currency))
    else FundingPostings(row.organization, Money(row.amount, row.currency))
  }

  function RefundRowPostings(row: Refund): seq<Posting>
  {
    if row.status != Succeeded then []
    else if row.gatewayRefund.None? then ReturnPostings(row.organization, Money(row.amount, row.currency))
    else RefundPostings(row.organization, Money(row.amount, row.currency))
  }

  function TopUpRowPostings(row: TopUp): seq<Posting>
  {
    if row.status != Succeeded then [] else TopUpPostings(row.organization, Money(row.amount, row.currency))
  }

  function WithdrawalRowPostings(row: WithdrawalRow): seq<Posting>
  {
    if row.status != Paid then [] else WithdrawalPostings(row.creator, Money(row.amount, row.currency))
  }

  function FundingHits(account: AccountKey, direction: Direction): Funding -> int
  {
    (row: Funding) => Hits(FundingRowPostings(row), account, direction)
  }

  function RefundHits(account: AccountKey, direction: Direction): Refund -> int
  {
    (row: Refund) => Hits(RefundRowPostings(row), account, direction)
  }

  function TopUpHits(account: AccountKey, direction: Direction): TopUp -> int
  {
    (row: TopUp) => Hits(TopUpRowPostings(row), account, direction)
  }

  function WithdrawalHits(account: AccountKey, direction: Direction): WithdrawalRow -> int
  {
    (row: WithdrawalRow) => Hits(WithdrawalRowPostings(row), account, direction)
  }

  /** A running total debits its campaign's brand and credits its creator. */
  function EarningSide(campaigns: seq<Campaign>, account: AccountKey, direction: Direction): Filter
  {
    (key: EarningKey, currency: string) =>
      if direction == Debit then
        key.campaign < |campaigns| && account == Committed(campaigns[key.campaign].organization, currency)
      else account == Earned(key.creator, currency)
  }

  /** One side of one account, computed from the tables alone. */
  ghost function TableSide(db: Db, account: AccountKey, direction: Direction): int
  {
    Sum(db.fundings, FundingHits(account, direction))
    + Sum(db.refunds, RefundHits(account, direction))
    + Sum(db.topUps, TopUpHits(account, direction))
    + Sum(db.withdrawals, WithdrawalHits(account, direction))
    + SumAccrued(db.earnings, EarningSide(db.campaigns, account, direction))
  }

  /** What the ledger has, and what it lacks because a posting threw. */
  function BookedSide(db: Db, account: AccountKey, direction: Direction): int
  {
    SideTotal(db.journal, account, direction) + SideTotal(db.unposted, account, direction)
  }

  function BookedBalance(db: Db, account: AccountKey): int
  {
    BookedSide(db, account, Credit) - BookedSide(db, account, Debit)
  }

  ghost predicate Books(db: Db)
  {
    forall account, direction :: BookedSide(db, account, direction) == TableSide(db, account, direction)
  }

  lemma PostMovesBooks(
    db: Db, throws: bool, txType: TransactionType, reference: Reference, postings: seq<Posting>,
    account: AccountKey, direction: Direction)
    ensures BookedSide(Post(db, throws, txType, reference, postings), account, direction)
            == BookedSide(db, account, direction) + Hits(postings, account, direction)
  {
    PostingEffect(if throws then db.unposted else db.journal, txType, Some(reference), postings, account, direction);
  }

  // One row at a time.

  lemma FundingSucceededKeepsBooks(db: Db, f: nat, throws: bool)
    requires Books(db) && f < |db.fundings|
    requires db.fundings[f].status == Pending && !db.fundings[f].reference.FromWallet?
    ensures Books(FundingSucceeded(db, f, throws))
  {
    var row, after := db.fundings[f], FundingSucceeded(db, f, throws);
    var marked := db.(fundings := db.fundings[f := row.(status := Succeeded)]);
    var postings := FundingPostings(row.organization, Money(row.amount, row.currency));
    forall account, direction
      ensures BookedSide(after, account, direction) == TableSide(after, account, direction)
    {
      assert BookedSide(db, account, direction) == TableSide(db, account, direction);
      PostMovesBooks(marked, throws, CampaignFunding, RowReference(f), postings, account, direction);
      SumUpdate(db.fundings, f, row.(status := Succeeded), FundingHits(account, direction));
    }
  }

  lemma FundingFailedKeepsBooks(db: Db, f: nat)
    requires Books(db) && f < |db.fundings| && db.fundings[f].status == Pending
    ensures Books(db.(fundings := db.fundings[f := db.fundings[f].(status := Failed)]))
  {
    var row := db.fundings[f].(status := Failed);
    var after := db.(fundings := db.fundings[f := row]);
    forall account, direction
      ensures BookedSide(after, account, direction) == TableSide(after, account, direction)
    {
      assert BookedSide(db, account, direction) == TableSide(db, account, direction);
      SumUpdate(db.fundings, f, row, FundingHits(account, direction));
    }
  }

  lemma AddPendingKeepsBooks(db: Db, row: Funding)
    requires Books(db) && row.status == Pending
    ensures Books(AddFunding(db, row))
  {
    var after := AddFunding(db, row);
    forall account, direction
      ensures BookedSide(after, account, direction) == TableSide(after, account, direction)
    {
      assert BookedSide(db, account, direction) == TableSide(db, account, direction);
      SumAppend(db.fundings, row, FundingHits(account, direction));
    }
  }

  lemma WalletPaidKeepsBooks(db: Db, row: Funding, throws: bool)
    requires Books(db) && row.status == Succeeded && row.reference.FromWallet?
    ensures Books(WalletPaid(db, row, throws))
  {
    var after := WalletPaid(db, row, throws);
    var postings :=
      WalletFundingPostings(row.organization, Money(row.amount, row.currency), Money(row.fee, row.currency));
    forall account, direction
      ensures BookedSide(after, account, direction) == TableSide(after, account, direction)
    {
      assert BookedSide(db, account, direction) == TableSide(db, account, direction);
      PostMovesBooks(AddFunding(db, row), throws, TransactionType.WalletFunding, RowReference(|db.fundings|), postings,
                     account, direction);
      SumAppend(db.fundings, row, FundingHits(account, direction));
    }
  }

  lemma AddTopUpKeepsBooks(db: Db, row: TopUp)
    requires Books(db) && row.status == Pending
    ensures Books(db.(topUps := db.topUps + [row]))
  {
    var after := db.(topUps := db.topUps + [row]);
    forall account, direction
      ensures BookedSide(after, account, direction) == TableSide(after, account, direction)
    {
      assert BookedSide(db, account, direction) == TableSide(db, account, direction);
      SumAppend(db.topUps, row, TopUpHits(account, direction));
    }
  }

  lemma TopUpSucceededKeepsBooks(db: Db, t: nat, throws: bool)
    requires Books(db) && t < |db.topUps| && db.topUps[t].status == Pending
    ensures Books(TopUpSucceeded(db, t, throws))
  {
    var row, after := db.topUps[t], TopUpSucceeded(db, t, throws);
    var marked := db.(topUps := db.topUps[t := row.(status := Succeeded)]);
    var postings := TopUpPostings(row.organization, Money(row.amount, row.currency));
    forall account, direction
      ensures BookedSide(after, account, direction) == TableSide(after, account, direction)
    {
      assert BookedSide(db, account, direction) == TableSide(db, account, direction);
      PostMovesBooks(marked, throws, WalletTopUp, RowReference(t), postings, account, direction);
      SumUpdate(db.topUps, t, row.(status := Succeeded), TopUpHits(account, direction));
    }
  }

  lemma TopUpFailedKeepsBooks(db: Db, t: nat)
    requires Books(db) && t < |db.topUps| && db.topUps[t].status == Pending
    ensures Books(db.(topUps := db.topUps[t := db.topUps[t].(status := Failed)]))
  {
    var row := db.topUps[t].(status := Failed);
    var after := db.(topUps := db.topUps[t := row]);
    forall account, direction
      ensures BookedSide(after, account, direction) == TableSide(after, account, direction)
    {
      assert BookedSide(db, account, direction) == TableSide(db, account, direction);
      SumUpdate(db.topUps, t, row, TopUpHits(account, direction));
    }
  }

  lemma RefundKeepsBooks(db: Db, f: nat, amount: nat, toWallet: bool, outcome: GatewayOutcome)
    requires Books(db) && f < |db.fundings|
    ensures Books(RefundOne(db, f, amount, toWallet, outcome))
  {
    var after := RefundOne(db, f, amount, toWallet, outcome);
    var row := after.refunds[|db.refunds|];
    var txType := if toWallet then WalletReturn else CampaignRefund;
    var postings := RefundRowPostings(row);
    var throws := toWallet && outcome.PostingFails?;
    forall account, direction
      ensures BookedSide(after, account, direction) == TableSide(after, account, direction)
    {
      assert BookedSide(db, account, direction) == TableSide(db, account, direction);
      PostMovesBooks(db, throws, txType, RowReference(|db.refunds|), postings, account, direction);
      SumAppend(db.refunds, row, RefundHits(account, direction));
    }
  }

  lemma AddWithdrawalKeepsBooks(db: Db, row: WithdrawalRow)
    requires Books(db) && row.status != Paid
    ensures Books(db.(withdrawals := db.withdrawals + [row]))
  {
    var after := db.(withdrawals := db.withdrawals + [row]);
    forall account, direction
      ensures BookedSide(after, account, direction) == TableSide(after, account, direction)
    {
      assert BookedSide(db, account, direction) == TableSide(db, account, direction);
      SumAppend(db.withdrawals, row, WithdrawalHits(account, direction));
    }
  }

  lemma SetWithdrawalKeepsBooks(db: Db, w: nat, status: WithdrawalStatus)
    requires Books(db) && w < |db.withdrawals| && db.withdrawals[w].status != Paid && status != Paid
    ensures Books(SetWithdrawal(db, w, status))
  {
    var after := SetWithdrawal(db, w, status);
    forall account, direction
      ensures BookedSide(after, account, direction) == TableSide(after, account, direction)
    {
      assert BookedSide(db, account, direction) == TableSide(db, account, direction);
      SumUpdate(db.withdrawals, w, db.withdrawals[w].(status := status), WithdrawalHits(account, direction));
    }
  }

  lemma PaidOutKeepsBooks(db: Db, w: nat)
    requires Books(db) && w < |db.withdrawals| && db.withdrawals[w].status != Paid
    ensures Books(PaidOut(db, w))
  {
    var row, after := db.withdrawals[w], PaidOut(db, w);
    var postings := WithdrawalPostings(row.creator, Money(row.amount, row.currency));
    forall account, direction
      ensures BookedSide(after, account, direction) == TableSide(after, account, direction)
    {
      assert BookedSide(db, account, direction) == TableSide(db, account, direction);
      PostMovesBooks(db, false, TransactionType.Withdrawal, RowReference(w), postings, account, direction);
      SumUpdate(db.withdrawals, w, row.(status := Paid), WithdrawalHits(account, direction));
    }
  }

  // Campaigns: only the brand of a campaign enters the books, and it never changes.

  lemma CampaignsKeepBooks(db: Db, campaigns: seq<Campaign>)
    requires Books(db) && |db.campaigns| <= |campaigns|
    requires forall c :: 0 <= c < |db.campaigns| ==> campaigns[c].organization == db.campaigns[c].organization
    requires forall key :: key in db.earnings ==> key.campaign < |db.campaigns|
    ensures Books(db.(campaigns := campaigns))
  {
    var after := db.(campaigns := campaigns);
    forall account, direction
      ensures BookedSide(after, account, direction) == TableSide(after, account, direction)
    {
      assert BookedSide(db, account, direction) == TableSide(db, account, direction);
      SetSumSame(db.earnings.Keys,
                 Contribution(db.earnings, EarningSide(db.campaigns, account, direction)),
                 Contribution(db.earnings, EarningSide(campaigns, account, direction)));
    }
  }

  // Settlement.

  lemma {:induction false} EarningLinesSide(
    campaigns: seq<Campaign>, c: nat, credits: seq<Settlement.Credit>, account: AccountKey, direction: Direction)
    requires c < |campaigns|
    ensures SideTotal(EarningLines(campaigns[c], c, credits), account, direction)
            == Sum(credits, Settlement.AmountWhere(c, campaigns[c].currency,
                EarningSide(campaigns, account, direction)))
  {
    if credits != [] {
      var n := |credits| - 1;
      EarningLinesSide(campaigns, c, credits[..n], account, direction);
      PostingEffect(EarningLines(campaigns[c], c, credits[..n]), EarningAccrual,
                    Some(EarningReference(c, credits[n].creator, credits[n].total)),
                    CreditPostings(campaigns[c], credits[n]), account, direction);
    }
  }

  lemma PassKeepsSide(
    db: Db, pass: Settlement.Pass, budget: int, failAt: Option<nat>, account: AccountKey, direction: Direction)
    requires pass.campaign < |db.campaigns| && pass.currency == db.campaigns[pass.campaign].currency
    requires CurrencyOf(db.earnings, pass.campaign, pass.currency)
    requires BookedSide(db, account, direction) == TableSide(db, account, direction)
    ensures
      var progress := Settlement.Settle(pass, db.earnings, budget, failAt);
      var after := Credited(db, pass.campaign, progress.rows, progress.credits);
      BookedSide(after, account, direction) == TableSide(after, account, direction)
  {
    var credits := Settlement.Settle(pass, db.earnings, budget, failAt).credits;
    SumConcat(db.journal, EarningLines(db.campaigns[pass.campaign], pass.campaign, credits),
              SideWeight(account, direction));
    EarningLinesSide(db.campaigns, pass.campaign, credits, account, direction);
    Settlement.CreditsMatchRows(pass, db.earnings, budget, failAt, |pass.creatorIds|,
                                EarningSide(db.campaigns, account, direction));
  }

  lemma PassKeepsBooks(
    db: Db, c: nat, pass: Settlement.Pass, budget: int, failAt: Option<nat>, progress: Settlement.Progress)
    requires Books(db) && c < |db.campaigns|
    requires pass.campaign == c && pass.currency == db.campaigns[c].currency
    requires CurrencyOf(db.earnings, c, db.campaigns[c].currency)
    requires progress == Settlement.Settle(pass, db.earnings, budget, failAt)
    ensures Books(Credited(db, c, progress.rows, progress.credits))
  {
    var after := Credited(db, c, progress.rows, progress.credits);
    forall account, direction
      ensures BookedSide(after, account, direction) == TableSide(after, account, direction)
    {
      assert BookedSide(db, account, direction) == TableSide(db, account, direction);
      PassKeepsSide(db, pass, budget, failAt, account, direction);
    }
  }
}
