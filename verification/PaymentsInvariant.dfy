/**
  What every run of calls keeps: rows refer to each other correctly, ledger and tables agree but for
  lost lines, no campaign accrues or returns more than was paid in, no wallet or creator is overdrawn.
 */
module PaymentsInvariant {
  import opened Outcomes
  import opened Sums
  import opened Money
  import opened Entitlement
  import opened LedgerTransactions
  import opened Ledger
  import opened EarningTable
  import opened Payments
  import opened PaymentsBooks
  import Settlement

  // Rows.

  predicate FundingOk(campaigns: seq<Campaign>, row: Funding)
  {
    && row.campaign < |campaigns|
    && row.organization == campaigns[row.campaign].organization
    && 0 < row.amount
    && (row.reference.FromWallet? ==> row.status == Succeeded)
  }

  /** A refund belongs to one settled funding; between calls it has ended. */
  predicate RefundOk(fundings: seq<Funding>, row: Refund)
  {
    && row.funding < |fundings|
    && fundings[row.funding].status == Succeeded
    && row.campaign == fundings[row.funding].campaign
    && row.organization == fundings[row.funding].organization
    && row.currency == fundings[row.funding].currency
    && 0 < row.amount
    && row.status != Pending
  }

  predicate EarningOk(campaigns: seq<Campaign>, key: EarningKey, row: Earning)
  {
    && key.campaign < |campaigns|
    && campaigns[key.campaign].status != Draft
    && row.currency == campaigns[key.campaign].currency
    && 0 <= row.accrued
    && (campaigns[key.campaign].terms.cap.Some? ==> row.accrued <= campaigns[key.campaign].terms.cap.value)
  }

  predicate DistinctFundings(fundings: seq<Funding>)
  {
    forall i, j :: 0 <= i < j < |fundings| ==> fundings[i].reference != fundings[j].reference
  }

  predicate DistinctTopUps(topUps: seq<TopUp>)
  {
    forall i, j :: 0 <= i < j < |topUps| ==> topUps[i].reference != topUps[j].reference
  }

  ghost predicate FundingsOk(db: Db)
  {
    && (forall i :: 0 <= i < |db.fundings| ==> FundingOk(db.campaigns, db.fundings[i]))
    && DistinctFundings(db.fundings)
    && DistinctTopUps(db.topUps)
  }

  ghost predicate RefundsOk(db: Db)
  {
    && (forall i :: 0 <= i < |db.refunds| ==> RefundOk(db.fundings, db.refunds[i]))
    && (forall f :: 0 <= f < |db.fundings| ==> Sum(db.refunds, RefundOn(f)) <= db.fundings[f].amount)
  }

  ghost predicate EarningsOk(db: Db)
  {
    forall key :: key in db.earnings ==> EarningOk(db.campaigns, key, db.earnings[key])
  }

  // Money.

  /** What one campaign may have paid out, at every moment. */
  ghost predicate Limits(db: Db, c: nat)
    requires c < |db.campaigns|
  {
    var campaign := db.campaigns[c];
    && AccruedMinor(db, c) <= campaign.budget
    && AccruedMinor(db, c) <= TotalSucceededMinor(db, c)
    && (campaign.status == Published ==> campaign.budget <= TotalSucceededMinor(db, c))
    && (campaign.status == Draft ==> AccruedMinor(db, c) == 0)
  }

  ghost predicate AllLimits(db: Db)
  {
    forall c :: 0 <= c < |db.campaigns| ==> Limits(db, c)
  }

  /** Open withdrawals are covered by the creator's balance, and no wallet is overdrawn. */
  ghost predicate Covered(journal: seq<JournalLine>, withdrawals: seq<WithdrawalRow>)
  {
    && (forall creator: nat, currency: string ::
          Sum(withdrawals, OpenOf(creator, currency)) <= Balance(journal, Earned(creator, currency)))
    && forall organization: nat, currency: string :: 0 <= Balance(journal, Wallet(organization, currency))
  }

  ghost predicate Inv(db: Db)
  {
    && FundingsOk(db) && RefundsOk(db) && EarningsOk(db)
    && Books(db)
    && AllLimits(db)
    && Covered(db.journal, db.withdrawals)
  }

  lemma EmptyInv()
    ensures Inv(EmptyDb)
  {
    forall account, direction
      ensures BookedSide(EmptyDb, account, direction) == TableSide(EmptyDb, account, direction)
    {
    }
  }

  // Campaigns.

  lemma AddCampaignKeeps(db: Db, campaign: Campaign)
    requires Inv(db) && campaign.status == Draft
    ensures Inv(db.(campaigns := db.campaigns + [campaign]))
  {
    var after := db.(campaigns := db.campaigns + [campaign]);
    CampaignsKeepBooks(db, after.campaigns);
    NothingYet(db);
    forall c | 0 <= c < |after.campaigns| ensures Limits(after, c) {
      if c < |db.campaigns| {
        assert Limits(db, c);
      }
    }
  }

  /** No row mentions a campaign that does not exist. */
  lemma NothingYet(db: Db)
    requires FundingsOk(db) && RefundsOk(db) && EarningsOk(db)
    ensures TotalSucceededMinor(db, |db.campaigns|) == 0 && AccruedMinor(db, |db.campaigns|) == 0
  {
    var c := |db.campaigns|;
    SumZero(db.fundings, FundingOf(c));
    forall i | 0 <= i < |db.refunds| ensures RefundOf(c)(db.refunds[i]) == 0 {
      assert RefundOk(db.fundings, db.refunds[i]);
    }
    SumZero(db.refunds, RefundOf(c));
    NoRowsNoSum(db.earnings, c);
  }

  lemma NoRowsNoSum(rows: Earnings, c: nat)
    requires forall key :: key in rows ==> key.campaign != c
    ensures CampaignAccrued(rows, c) == 0
  {
    SetSumZero(rows.Keys, Contribution(rows, OfCampaign(c)));
  }

  /**
    A campaign's money terms change only while it is a draft, where nothing has accrued; publishing
    requires its whole budget; closing changes nothing else.
   */
  lemma CampaignChangeKeeps(db: Db, c: nat, campaign: Campaign)
    requires Inv(db) && c < |db.campaigns| && campaign.organization == db.campaigns[c].organization
    requires (db.campaigns[c].status == Draft && campaign.status != Closed)
             || (db.campaigns[c].status == Published && campaign == db.campaigns[c].(status := Closed))
    requires campaign.status == Published ==> campaign.budget <= TotalSucceededMinor(db, c)
    ensures Inv(SetCampaign(db, c, campaign))
  {
    var after := SetCampaign(db, c, campaign);
    CampaignsKeepBooks(db, after.campaigns);
    assert Limits(db, c);
    forall other | 0 <= other < |after.campaigns| ensures Limits(after, other) {
      assert Limits(db, other);
    }
    forall key | key in after.earnings ensures EarningOk(after.campaigns, key, after.earnings[key]) {
      assert EarningOk(db.campaigns, key, db.earnings[key]);
    }
    forall i | 0 <= i < |after.fundings| ensures FundingOk(after.campaigns, after.fundings[i]) {
      assert FundingOk(db.campaigns, db.fundings[i]);
    }
  }

  // Payments in.

  /** Money moves no creator or wallet account here except as stated. */
  lemma PostedCovers(db: Db, txType: TransactionType, reference: Reference, postings: seq<Posting>,
      withdrawals: seq<WithdrawalRow>)
    requires Covered(db.journal, db.withdrawals)
    requires forall creator: nat, currency: string ::
               Sum(withdrawals, OpenOf(creator, currency)) - Sum(db.withdrawals, OpenOf(creator, currency))
               <= Hits(postings, Earned(creator, currency), Credit) - Hits(postings, Earned(creator, currency), Debit)
    requires forall organization: nat, currency: string ::
               0 <= Balance(db.journal, Wallet(organization, currency))
                    + Hits(postings, Wallet(organization, currency), Credit)
                    - Hits(postings, Wallet(organization, currency), Debit)
    ensures Covered(Posted(db, txType, reference, postings).journal, withdrawals)
  {
    var after := Posted(db, txType, reference, postings).journal;
    forall account
      ensures Balance(after, account)
              == Balance(db.journal, account) + Hits(postings, account, Credit) - Hits(postings, account, Debit)
    {
      PostingEffect(db.journal, txType, Some(reference), postings, account, Credit);
      PostingEffect(db.journal, txType, Some(reference), postings, account, Debit);
    }
  }

  /** Postings that touch neither wallets nor creators. */
  lemma OtherAccountsUntouched(postings: seq<Posting>)
    requires |postings| == 2
    requires forall i :: 0 <= i < 2 ==>
               KeyOf(postings[i].spec).PlatformAccount? || KeyOf(postings[i].spec).ownerType == Organization
    ensures forall creator: nat, currency: string, direction ::
        Hits(postings, Earned(creator, currency), direction) == 0
    ensures forall organization: nat, currency: string, direction ::
        Hits(postings, Wallet(organization, currency), direction) == 0
  {
    forall account: AccountKey, direction | account.OwnerAccount? && account.ownerType != Organization
      ensures Hits(postings, account, direction) == 0
    {
      SumOfPair(postings, Hit(account, direction));
    }
  }

  /** Funding rows only ever add to what a campaign was paid. */
  lemma MoreFundingKeepsLimits(db: Db, after: Db)
    requires AllLimits(db)
    requires after.campaigns == db.campaigns && after.refunds == db.refunds && after.earnings == db.earnings
    requires forall c: nat :: FundedMinor(db, c) <= FundedMinor(after, c)
    ensures AllLimits(after)
  {
    forall c | 0 <= c < |after.campaigns| ensures Limits(after, c) {
      assert Limits(db, c);
    }
  }

  /** Limits read only campaigns, fundings, refunds and earnings. */
  lemma SameMoney(db: Db, after: Db)
    requires AllLimits(db)
    requires after.campaigns == db.campaigns && after.fundings == db.fundings
    requires after.refunds == db.refunds && after.earnings == db.earnings
    ensures AllLimits(after)
  {
    forall c | 0 <= c < |db.campaigns| ensures Limits(after, c) {
      assert Limits(db, c);
    }
  }

  lemma FundingRowKeepsRefunds(db: Db, fundings: seq<Funding>)
    requires RefundsOk(db) && |db.fundings| <= |fundings|
    requires forall f :: 0 <= f < |db.fundings| ==>
               fundings[f] == db.fundings[f] || (db.fundings[f].status == Pending
                 && fundings[f] == db.fundings[f].(status := fundings[f].status))
    ensures RefundsOk(db.(fundings := fundings))
  {
    forall i | 0 <= i < |db.refunds| ensures RefundOk(fundings, db.refunds[i]) {
      assert RefundOk(db.fundings, db.refunds[i]);
    }
    forall f | 0 <= f < |fundings| ensures Sum(db.refunds, RefundOn(f)) <= fundings[f].amount {
      if |db.fundings| <= f {
        forall i | 0 <= i < |db.refunds| ensures RefundOn(f)(db.refunds[i]) == 0 {
          assert RefundOk(db.fundings, db.refunds[i]);
        }
        SumZero(db.refunds, RefundOn(f));
      }
    }
  }

  lemma AddFundingKeepsRows(db: Db, row: Funding)
    requires FundingsOk(db) && RefundsOk(db) && EarningsOk(db) && AllLimits(db)
    requires FundingOk(db.campaigns, row) && FindFunding(db.fundings, row.reference).None?
    ensures
      var added := AddFunding(db, row);
      FundingsOk(added) && RefundsOk(added) && EarningsOk(added) && AllLimits(added)
  {
    var added := AddFunding(db, row);
    FundingRowKeepsRefunds(db, added.fundings);
    forall c: nat ensures FundedMinor(db, c) <= FundedMinor(added, c) {
      SumAppend(db.fundings, row, FundingOf(c));
    }
    MoreFundingKeepsLimits(db, added);
  }

  lemma AddFundingKeeps(db: Db, row: Funding)
    requires Inv(db) && FundingOk(db.campaigns, row) && row.status == Pending
    requires FindFunding(db.fundings, row.reference).None?
    ensures Inv(AddFunding(db, row))
  {
    AddPendingKeepsBooks(db, row);
    AddFundingKeepsRows(db, row);
  }

  lemma SetFundingStatus(db: Db, f: nat, status: PaymentStatus)
    requires FundingsOk(db) && RefundsOk(db) && AllLimits(db) && f < |db.fundings| && db.fundings[f].status == Pending
    ensures
      var after := db.(fundings := db.fundings[f := db.fundings[f].(status := status)]);
      FundingsOk(after) && RefundsOk(after) && AllLimits(after)
  {
    var row := db.fundings[f].(status := status);
    var after := db.(fundings := db.fundings[f := row]);
    assert FundingOk(db.campaigns, db.fundings[f]);
    FundingRowKeepsRefunds(db, after.fundings);
    forall c: nat ensures FundedMinor(db, c) <= FundedMinor(after, c) {
      SumUpdate(db.fundings, f, row, FundingOf(c));
    }
    MoreFundingKeepsLimits(db, after);
  }

  lemma FundingPostingCovers(db: Db, f: nat, throws: bool)
    requires Covered(db.journal, db.withdrawals) && f < |db.fundings|
    ensures Covered(FundingSucceeded(db, f, throws).journal, db.withdrawals)
  {
    if !throws {
      var postings :=
        FundingPostings(db.fundings[f].organization, Money(db.fundings[f].amount, db.fundings[f].currency));
      OtherAccountsUntouched(postings);
      PostedCovers(db, CampaignFunding, RowReference(f), postings, db.withdrawals);
    }
  }

  lemma MarkFundingKeeps(db: Db, reference: PaymentReference, succeeded: bool, throws: bool)
    requires Inv(db)
    ensures Inv(MarkFunding(db, reference, succeeded, throws))
  {
    var found := FindFunding(db.fundings, reference);
    if found.Some? && db.fundings[found.value].status == Pending {
      var f, row := found.value, db.fundings[found.value];
      assert FundingOk(db.campaigns, row);
      if succeeded {
        SetFundingStatus(db, f, Succeeded);
        FundingSucceededKeepsBooks(db, f, throws);
        FundingPostingCovers(db, f, throws);
        SameMoney(db.(fundings := db.fundings[f := row.(status := Succeeded)]), FundingSucceeded(db, f, throws));
      } else {
        SetFundingStatus(db, f, Failed);
        FundingFailedKeepsBooks(db, f);
      }
    }
  }

  lemma WalletDebitHits(organization: nat, budget: Money, fee: Money)
    requires 0 <= fee.amountMinor
    ensures
      var postings := WalletFundingPostings(organization, budget, fee);
      && (forall creator: nat, currency: string, direction :: Hits(postings, Earned(creator, currency), direction) == 0)
      && (forall o: nat, currency: string ::
            Hits(postings, Wallet(o, currency), Credit) - Hits(postings, Wallet(o, currency), Debit)
            == if o == organization && currency == budget.currencyCode then -(budget.amountMinor + fee.amountMinor)
                else 0)
  {
    var postings := WalletFundingPostings(organization, budget, fee);
    forall account, direction
      ensures Hits(postings, account, direction) ==
              Hit(account, direction)(postings[0]) + Hit(account, direction)(postings[1])
              + if 0 < fee.amountMinor then Hit(account, direction)(postings[2]) else 0
    {
      PostingEffect([], TransactionType.WalletFunding, None, postings, account, direction);
    }
  }

  lemma WalletPaidCovers(db: Db, row: Funding, throws: bool)
    requires Covered(db.journal, db.withdrawals)
    requires row.amount + row.fee <= Balance(db.journal, Wallet(row.organization, row.currency))
    ensures Covered(WalletPaid(db, row, throws).journal, db.withdrawals)
  {
    var postings :=
      WalletFundingPostings(row.organization, Money(row.amount, row.currency), Money(row.fee, row.currency));
    if !throws {
      WalletDebitHits(row.organization, Money(row.amount, row.currency), Money(row.fee, row.currency));
      PostedCovers(db, TransactionType.WalletFunding, RowReference(|db.fundings|), postings, db.withdrawals);
    }
  }

  lemma WalletPaidKeeps(db: Db, row: Funding, throws: bool)
    requires Inv(db) && FundingOk(db.campaigns, row) && row.status == Succeeded && row.reference.FromWallet?
    requires FindFunding(db.fundings, row.reference).None?
    requires row.amount + row.fee <= Balance(db.journal, Wallet(row.organization, row.currency))
    ensures Inv(WalletPaid(db, row, throws))
  {
    WalletPaidKeepsBooks(db, row, throws);
    AddFundingKeepsRows(db, row);
    WalletPaidCovers(db, row, throws);
    SameMoney(AddFunding(db, row), WalletPaid(db, row, throws));
  }

  lemma AddTopUpKeeps(db: Db, row: TopUp)
    requires Inv(db) && row.status == Pending && FindTopUp(db.topUps, row.reference).None?
    ensures Inv(db.(topUps := db.topUps + [row]))
  {
    AddTopUpKeepsBooks(db, row);
    SameMoney(db, db.(topUps := db.topUps + [row]));
  }

  lemma CreditHits(organization: nat, amount: Money)
    ensures
      var postings := TopUpPostings(organization, amount);
      && (forall creator: nat, currency: string, direction :: Hits(postings, Earned(creator, currency), direction) == 0)
      && (forall o: nat, currency: string :: Hits(postings, Wallet(o, currency), Debit) == 0
            && Hits(postings, Wallet(o, currency), Credit)
               == if o == organization && currency == amount.currencyCode then amount.amountMinor else 0)
    ensures
      var postings := ReturnPostings(organization, amount);
      && (forall creator: nat, currency: string, direction :: Hits(postings, Earned(creator, currency), direction) == 0)
      && (forall o: nat, currency: string :: Hits(postings, Wallet(o, currency), Debit) == 0
            && Hits(postings, Wallet(o, currency), Credit)
               == if o == organization && currency == amount.currencyCode then amount.amountMinor else 0)
  {
    forall account, direction
      ensures Hits(TopUpPostings(organization, amount), account, direction) ==
              Hit(account, direction)(TopUpPostings(organization, amount)[0])
              + Hit(account, direction)(TopUpPostings(organization, amount)[1])
      ensures Hits(ReturnPostings(organization, amount), account, direction) ==
              Hit(account, direction)(ReturnPostings(organization, amount)[0])
              + Hit(account, direction)(ReturnPostings(organization, amount)[1])
    {
      SumOfPair(TopUpPostings(organization, amount), Hit(account, direction));
      SumOfPair(ReturnPostings(organization, amount), Hit(account, direction));
    }
  }

  lemma MarkTopUpKeeps(db: Db, reference: PaymentReference, succeeded: bool, throws: bool)
    requires Inv(db)
    ensures Inv(MarkTopUp(db, reference, succeeded, throws))
  {
    var found := FindTopUp(db.topUps, reference);
    if found.Some? && db.topUps[found.value].status == Pending {
      var t, row := found.value, db.topUps[found.value];
      SameMoney(db, MarkTopUp(db, reference, succeeded, throws));
      if succeeded {
        TopUpSucceededKeepsBooks(db, t, throws);
        if !throws {
          CreditHits(row.organization, Money(row.amount, row.currency));
          PostedCovers(db, WalletTopUp, RowReference(t),
                       TopUpPostings(row.organization, Money(row.amount, row.currency)), db.withdrawals);
        }
      } else {
        TopUpFailedKeepsBooks(db, t);
      }
    }
  }

  // Settlement.

  lemma CampaignCurrency(db: Db, c: nat)
    requires EarningsOk(db) && c < |db.campaigns|
    ensures CurrencyOf(db.earnings, c, db.campaigns[c].currency)
  {
    forall key | key in db.earnings && key.campaign == c
      ensures db.earnings[key].currency == db.campaigns[c].currency
    {
      assert EarningOk(db.campaigns, key, db.earnings[key]);
    }
  }

  /** A pass whose entitlements respect the cap leaves every running total within it. */
  lemma PassKeepsEarnings(db: Db, pass: Settlement.Pass, progress: Settlement.Progress)
    requires EarningsOk(db) && pass.campaign < |db.campaigns|
    requires Settlement.SoundTotals(pass, db.earnings, progress)
    requires pass.currency == db.campaigns[pass.campaign].currency
    requires progress.rows == db.earnings || db.campaigns[pass.campaign].status != Draft
    requires forall u: nat :: 0 <= pass.entitled(u)
    requires db.campaigns[pass.campaign].terms.cap.Some? ==>
               forall u: nat :: pass.entitled(u) <= db.campaigns[pass.campaign].terms.cap.value
    ensures EarningsOk(db.(earnings := progress.rows))
  {
    forall key | key in progress.rows ensures EarningOk(db.campaigns, key, progress.rows[key]) {
      assert key in db.earnings ==> EarningOk(db.campaigns, key, db.earnings[key]);
      if key.campaign == pass.campaign {
        var u := key.creator;
        assert key == EarningKey(pass.campaign, u);
        assert 0 <= Settlement.Gain(pass, db.earnings, progress.rows, u) <= Settlement.Want(pass, db.earnings)(u);
      } else {
        assert RowAt(progress.rows, key) == RowAt(db.earnings, key);
      }
    }
  }

  lemma PassMovesOneCampaign(
    pass: Settlement.Pass, rows: Earnings, budget: int, failAt: Option<nat>, progress: Settlement.Progress, other: nat)
    requires CurrencyOf(rows, pass.campaign, pass.currency) && other != pass.campaign
    requires progress == Settlement.Settle(pass, rows, budget, failAt)
    ensures CampaignAccrued(progress.rows, other) == CampaignAccrued(rows, other)
  {
    Settlement.CreditsMatchRows(pass, rows, budget, failAt, |pass.creatorIds|, OfCampaign(other));
    SumZero(progress.credits, Settlement.AmountWhere(pass.campaign, pass.currency, OfCampaign(other)));
  }

  lemma PassWithinBudget(
    pass: Settlement.Pass, rows: Earnings, budget: nat, failAt: Option<nat>, progress: Settlement.Progress)
    requires CurrencyOf(rows, pass.campaign, pass.currency)
    requires progress == Settlement.Settle(pass, rows, budget, failAt)
    ensures CampaignAccrued(rows, pass.campaign) <= CampaignAccrued(progress.rows, pass.campaign)
            <= CampaignAccrued(rows, pass.campaign) + budget
  {
    Settlement.BudgetPaysForGains(pass, rows, budget, failAt);
  }

  lemma PassKeepsLimits(db: Db, pass: Settlement.Pass, failAt: Option<nat>, progress: Settlement.Progress)
    requires EarningsOk(db) && AllLimits(db) && pass.campaign < |db.campaigns|
    requires pass.currency == db.campaigns[pass.campaign].currency
    requires progress == Settlement.Settle(pass, db.earnings,
                                           PassBudget(db, pass.campaign), failAt)
    requires progress.rows == db.earnings || db.campaigns[pass.campaign].status != Draft
    ensures AllLimits(db.(earnings := progress.rows))
  {
    var c, after := pass.campaign, db.(earnings := progress.rows);
    var budget := PassBudget(db, c);
    CampaignCurrency(db, c);
    assert Limits(db, c);
    PassWithinBudget(pass, db.earnings, budget, failAt, progress);
    forall other | 0 <= other < |db.campaigns| ensures Limits(after, other) {
      assert Limits(db, other);
      if other != c {
        PassMovesOneCampaign(pass, db.earnings, budget, failAt, progress, other);
      }
    }
  }

  /** Earnings only ever add to creators' balances and leave wallets alone. */
  lemma EarningLinesCover(db: Db, c: nat, credits: seq<Settlement.Credit>)
    requires c < |db.campaigns| && Covered(db.journal, db.withdrawals)
    requires forall i :: 0 <= i < |credits| ==> 0 < credits[i].amount
    ensures Covered(db.journal + EarningLines(db.campaigns[c], c, credits), db.withdrawals)
  {
    var lines := EarningLines(db.campaigns[c], c, credits);
    forall creator: nat, currency: string
      ensures Balance(db.journal, Earned(creator, currency)) <= Balance(db.journal + lines, Earned(creator, currency))
    {
      EarningLinesBalance(db, c, credits, Earned(creator, currency));
    }
    forall organization: nat, currency: string
      ensures Balance(db.journal, Wallet(organization, currency))
          <= Balance(db.journal + lines, Wallet(organization, currency))
    {
      EarningLinesBalance(db, c, credits, Wallet(organization, currency));
    }
  }

  lemma {:induction false} EarningLinesBalance(db: Db, c: nat, credits: seq<Settlement.Credit>, account: AccountKey)
    requires c < |db.campaigns| && account.OwnerAccount? && account.ownerType != Organization
    requires forall i :: 0 <= i < |credits| ==> 0 < credits[i].amount
    ensures Balance(db.journal, account) <= Balance(db.journal + EarningLines(db.campaigns[c], c, credits), account)
  {
    BalanceConcat(db.journal, EarningLines(db.campaigns[c], c, credits), account);
    EarningLinesSide(db.campaigns, c, credits, account, Credit);
    EarningLinesSide(db.campaigns, c, credits, account, Debit);
    var currency := db.campaigns[c].currency;
    SumNonNegative(credits, Settlement.AmountWhere(c, currency, EarningSide(db.campaigns, account, Credit)));
    SumZero(credits, Settlement.AmountWhere(c, currency, EarningSide(db.campaigns, account, Debit)));
  }

  lemma EntitlementsRespectCap(db: Db, c: nat, readings: Readings)
    requires c < |db.campaigns|
    ensures
      var pass := PassFor(db, c, readings);
      && pass.campaign == c
      && pass.currency == db.campaigns[c].currency
      && (forall u: nat :: 0 <= pass.entitled(u))
      && (db.campaigns[c].terms.cap.Some? ==> forall u: nat :: pass.entitled(u) <= db.campaigns[c].terms.cap.value)
      && (db.campaigns[c].status == Draft ==> pass.creatorIds == [])
  {
  }

  lemma PassKeeps(db: Db, pass: Settlement.Pass, failAt: Option<nat>, progress: Settlement.Progress)
    requires Inv(db) && pass.campaign < |db.campaigns|
    requires pass.currency == db.campaigns[pass.campaign].currency
    requires forall u: nat :: 0 <= pass.entitled(u)
    requires db.campaigns[pass.campaign].terms.cap.Some? ==>
               forall u: nat :: pass.entitled(u) <= db.campaigns[pass.campaign].terms.cap.value
    requires db.campaigns[pass.campaign].status == Draft ==> pass.creatorIds == []
    requires progress == Settlement.Settle(pass, db.earnings,
                                           PassBudget(db, pass.campaign), failAt)
    ensures Inv(Credited(db, pass.campaign, progress.rows, progress.credits))
  {
    var c := pass.campaign;
    var budget := PassBudget(db, c);
    CampaignCurrency(db, c);
    assert Settlement.Sound(pass, db.earnings, budget, progress) by {
      Settlement.PassIsSound(pass, db.earnings, budget, failAt, |pass.creatorIds|);
    }
    PassKeepsEarnings(db, pass, progress);
    PassKeepsLimits(db, pass, failAt, progress);
    PassKeepsBooks(db, c, pass, budget, failAt, progress);
    EarningLinesCover(db, c, progress.credits);
    SameMoney(db.(earnings := progress.rows), Credited(db, c, progress.rows, progress.credits));
  }

  lemma SettleKeeps(db: Db, c: nat, readings: Readings)
    requires Inv(db) && c < |db.campaigns|
    ensures Inv(SettleStep(db, c, readings).db)
  {
    EntitlementsRespectCap(db, c, readings);
    PassKeeps(db, PassFor(db, c, readings), readings.failAt, PassResult(db, c, readings));
  }

  // Refunds.

  /** The row a refund appends refers to its funding and copies its owner and currency. */
  lemma RefundAppends(db: Db, f: nat, amount: nat, toWallet: bool, outcome: GatewayOutcome) returns (row: Refund)
    requires f < |db.fundings| && db.fundings[f].status == Succeeded && 0 < amount
    ensures RefundOne(db, f, amount, toWallet, outcome).refunds == db.refunds + [row]
    ensures RefundOne(db, f, amount, toWallet, outcome).fundings == db.fundings
    ensures RefundOk(db.fundings, row) && row.funding == f && row.amount == amount
  {
    row := RefundOne(db, f, amount, toWallet, outcome).refunds[|db.refunds|];
  }

  /** What is asked back from a funding fits into what the funding still has. */
  lemma RefundFits(db: Db, row: Refund, g: nat)
    requires g < |db.fundings| && Sum(db.refunds, RefundOn(g)) <= db.fundings[g].amount
    requires row.funding == g ==> row.amount <= RefundableOn(db, g)
    ensures Sum(db.refunds + [row], RefundOn(g)) <= db.fundings[g].amount
  {
    SumAppend(db.refunds, row, RefundOn(g));
  }

  lemma RefundKeepsRows(db: Db, f: nat, amount: nat, toWallet: bool, outcome: GatewayOutcome)
    requires RefundsOk(db) && f < |db.fundings| && db.fundings[f].status == Succeeded
    requires 0 < amount <= RefundableOn(db, f)
    ensures RefundsOk(RefundOne(db, f, amount, toWallet, outcome))
  {
    var row := RefundAppends(db, f, amount, toWallet, outcome);
    forall g | 0 <= g < |db.fundings| ensures Sum(db.refunds + [row], RefundOn(g)) <= db.fundings[g].amount {
      RefundFits(db, row, g);
    }
  }

  /** What a refund of this outcome takes back. */
  function TakenBack(amount: nat, toWallet: bool, outcome: GatewayOutcome): nat
  {
    if toWallet || outcome.Refunded? then amount else 0
  }

  lemma RefundMovesSums(db: Db, f: nat, amount: nat, toWallet: bool, outcome: GatewayOutcome, c: nat)
    requires f < |db.fundings|
    ensures RefundedMinor(RefundOne(db, f, amount, toWallet, outcome), c)
            == RefundedMinor(db, c) + if db.fundings[f].campaign == c then TakenBack(amount, toWallet, outcome) else 0
  {
    SumAppend(db.refunds, RefundOne(db, f, amount, toWallet, outcome).refunds[|db.refunds|], RefundOf(c));
  }

  lemma RefundKeepsLimits(db: Db, f: nat, amount: nat, toWallet: bool, outcome: GatewayOutcome)
    requires FundingsOk(db) && AllLimits(db) && f < |db.fundings|
    requires db.fundings[f].campaign < |db.campaigns| && db.campaigns[db.fundings[f].campaign].status != Published
    requires amount <= TotalSucceededMinor(db, db.fundings[f].campaign) - AccruedMinor(db, db.fundings[f].campaign)
    ensures AllLimits(RefundOne(db, f, amount, toWallet, outcome))
  {
    var after := RefundOne(db, f, amount, toWallet, outcome);
    forall c | 0 <= c < |db.campaigns| ensures Limits(after, c) {
      assert Limits(db, c);
      RefundMovesSums(db, f, amount, toWallet, outcome, c);
    }
  }

  lemma RefundKeepsCover(db: Db, f: nat, amount: nat, toWallet: bool, outcome: GatewayOutcome)
    requires f < |db.fundings| && Covered(db.journal, db.withdrawals)
    ensures Covered(RefundOne(db, f, amount, toWallet, outcome).journal, db.withdrawals)
  {
    var row := db.fundings[f];
    var money := Money(amount, row.currency);
    if toWallet && !outcome.PostingFails? {
      CreditHits(row.organization, money);
      PostedCovers(db, WalletReturn, RowReference(|db.refunds|), ReturnPostings(row.organization, money),
          db.withdrawals);
    } else if !toWallet && outcome.Refunded? {
      OtherAccountsUntouched(RefundPostings(row.organization, money));
      PostedCovers(db, CampaignRefund, RowReference(|db.refunds|), RefundPostings(row.organization, money),
          db.withdrawals);
    }
  }

  lemma RefundOneKeeps(db: Db, f: nat, amount: nat, toWallet: bool, outcome: GatewayOutcome)
    requires Inv(db) && f < |db.fundings| && db.fundings[f].status == Succeeded
    requires 0 < amount <= RefundableOn(db, f)
    requires db.fundings[f].campaign < |db.campaigns| && db.campaigns[db.fundings[f].campaign].status != Published
    requires amount <= TotalSucceededMinor(db, db.fundings[f].campaign) - AccruedMinor(db, db.fundings[f].campaign)
    ensures Inv(RefundOne(db, f, amount, toWallet, outcome))
  {
    RefundKeepsRows(db, f, amount, toWallet, outcome);
    RefundKeepsLimits(db, f, amount, toWallet, outcome);
    RefundKeepsBooks(db, f, amount, toWallet, outcome);
    RefundKeepsCover(db, f, amount, toWallet, outcome);
  }

  ghost predicate SameButRefunds(db: Db, after: Db)
  {
    && after.campaigns == db.campaigns && after.fundings == db.fundings && after.earnings == db.earnings
    && after.topUps == db.topUps && after.withdrawals == db.withdrawals
  }

  /**
    Rows other than refunds stay; the campaign's refunds grow by what the loop reports, and by the return whose
    posting threw.
   */
  ghost predicate RefundEffect(
    db: Db, c: nat, remaining: int, refunded: int, toWallet: bool, progress: RefundProgress)
  {
    && SameButRefunds(db, progress.db)
    && RefundedMinor(progress.db, c) - RefundedMinor(db, c)
       == progress.refunded - refunded + (if toWallet then progress.stuck else 0)
    && (!progress.threw ==> progress.stuck == 0)
    && (0 < progress.stuck ==> progress.stuck <= progress.remaining)
    && progress.remaining + progress.refunded == remaining + refunded
    && (0 <= remaining ==> 0 <= progress.remaining)
    && refunded <= progress.refunded
  }

  /** One turn of the loop: what it takes, where it leaves the loop's variables, and that the whole goes on there. */
  lemma {:induction false} RefundTurn(
    whole: RefundProgress, db: Db, c: nat, f: nat, remaining: int, refunded: int, count: nat, toWallet: bool,
    gateway: nat -> GatewayOutcome)
    returns (amount: nat, turn: RefundProgress)
    requires f < |db.fundings| && 0 < remaining
    requires whole == RefundDown(db, c, f + 1, remaining, refunded, count, toWallet, gateway)
    ensures amount == Settlement.Max(0, TurnAmount(db, c, f, remaining)) && amount <= remaining
    ensures turn.db == (if amount == 0 then db else RefundOne(db, f, amount, toWallet, gateway(f)))
    ensures turn.db.fundings == db.fundings && turn.db.campaigns == db.campaigns && turn.db.earnings == db.earnings
    ensures turn.threw == (0 < amount && TurnThrows(toWallet, gateway(f)))
    ensures turn.remaining == (if turn.threw then remaining else remaining - amount)
    ensures turn.refunded == (if turn.threw then refunded else refunded + amount)
    ensures turn.count == (if turn.threw || amount == 0 then count else count + 1)
    ensures turn.stuck == (if turn.threw then StuckAt(amount, gateway(f)) else 0)
    ensures whole ==
            if turn.threw then turn
            else RefundDown(turn.db, c, f, turn.remaining, turn.refunded, turn.count, toWallet, gateway)
  {
    amount := Settlement.Max(0, TurnAmount(db, c, f, remaining));
    if amount == 0 {
      turn := RefundProgress(db, remaining, refunded, count, false, 0);
    } else if TurnThrows(toWallet, gateway(f)) {
      turn := RefundProgress(RefundOne(db, f, amount, toWallet, gateway(f)), remaining, refunded, count, true,
                             StuckAt(amount, gateway(f)));
    } else {
      turn := RefundProgress(RefundOne(db, f, amount, toWallet, gateway(f)), remaining - amount, refunded + amount,
                             count + 1, false, 0);
    }
  }

  /** What the loop reports is what it did, whether it runs to its end or a gateway failure stops it. */
  lemma {:induction false} RefundDownEffect(
    whole: RefundProgress, db: Db, c: nat, n: nat, remaining: int, refunded: int, count: nat, toWallet: bool,
    gateway: nat -> GatewayOutcome)
    requires n <= |db.fundings|
    requires whole == RefundDown(db, c, n, remaining, refunded, count, toWallet, gateway)
    ensures RefundEffect(db, c, remaining, refunded, toWallet, whole)
    decreases n
  {
    if 0 < n && 0 < remaining {
      var f := n - 1;
      var amount, turn := RefundTurn(whole, db, c, f, remaining, refunded, count, toWallet, gateway);
      if 0 < amount {
        RefundMovesSums(db, f, amount, toWallet, gateway(f), c);
      }
      if !turn.threw {
        RefundDownEffect(whole, turn.db, c, f, turn.remaining, turn.refunded, turn.count, toWallet, gateway);
      }
    }
  }

  lemma RefundTurnKeeps(
    db: Db, c: nat, f: nat, amount: nat, remaining: int, toWallet: bool, outcome: GatewayOutcome, next: Db)
    requires Inv(db) && f < |db.fundings| && c < |db.campaigns| && db.campaigns[c].status != Published
    requires remaining <= TotalSucceededMinor(db, c) - AccruedMinor(db, c)
    requires amount == Settlement.Max(0, TurnAmount(db, c, f, remaining)) && amount <= remaining
    requires next == if amount == 0 then db else RefundOne(db, f, amount, toWallet, outcome)
    ensures Inv(next)
    ensures remaining - amount <= TotalSucceededMinor(next, c) - AccruedMinor(next, c)
  {
    if 0 < amount {
      RefundOneKeeps(db, f, amount, toWallet, outcome);
      RefundMovesSums(db, f, amount, toWallet, outcome, c);
    }
  }

  /** The loop keeps everything, finished or not. */
  lemma {:induction false} RefundDownKeeps(
    whole: RefundProgress, db: Db, c: nat, n: nat, remaining: int, refunded: int, count: nat, toWallet: bool,
    gateway: nat -> GatewayOutcome)
    requires n <= |db.fundings| && c < |db.campaigns| && db.campaigns[c].status != Published
    requires whole == RefundDown(db, c, n, remaining, refunded, count, toWallet, gateway)
    requires remaining <= TotalSucceededMinor(db, c) - AccruedMinor(db, c)
    requires Inv(db)
    ensures Inv(whole.db)
    decreases n
  {
    if 0 < n && 0 < remaining {
      var f := n - 1;
      var amount, turn := RefundTurn(whole, db, c, f, remaining, refunded, count, toWallet, gateway);
      RefundTurnKeeps(db, c, f, amount, remaining, toWallet, gateway(f), turn.db);
      if !turn.threw {
        RefundDownKeeps(whole, turn.db, c, f, turn.remaining, turn.refunded, turn.count, toWallet, gateway);
      }
    }
  }

  lemma RefundStepKeeps(db: Db, c: nat, gateway: nat -> GatewayOutcome)
    requires Inv(db)
    ensures Inv(RefundStep(db, c, gateway).db)
  {
    if c < |db.campaigns| && db.campaigns[c].status != Published && 0 < RefundableMinor(db, c) {
      RefundDownKeeps(RefundRun(db, c, gateway), db, c, |db.fundings|, RefundableMinor(db, c), 0, 0,
                      db.campaigns[c].currency == WALLET_CURRENCY, gateway);
    }
  }

  lemma CloseKeeps(db: Db, c: nat, readings: Readings, gateway: nat -> GatewayOutcome)
    requires Inv(db)
    ensures Inv(CloseStep(db, c, readings, gateway).db)
  {
    if c < |db.campaigns| && db.campaigns[c].status == Published {
      var closed := SetCampaign(db, c, db.campaigns[c].(status := Closed));
      CampaignChangeKeeps(db, c, db.campaigns[c].(status := Closed));
      SettleKeeps(closed, c, readings);
      RefundStepKeeps(SettleStep(closed, c, readings).db, c, gateway);
    }
  }

  // Withdrawals.

  lemma RequestKeeps(db: Db, creator: nat, amount: int, currency: Currency, destination: Option<nat>)
    requires Inv(db)
    ensures Inv(RequestStep(db, creator, amount, currency, destination).db)
  {
    if 0 < amount <= AvailableMinor(db, creator, currency) {
      var row := WithdrawalRow(creator, amount, currency, Requested, destination);
      var after := db.(withdrawals := db.withdrawals + [row]);
      AddWithdrawalKeepsBooks(db, row);
      SameMoney(db, after);
      forall u: nat, k: string
        ensures Sum(after.withdrawals, OpenOf(u, k)) <= Balance(after.journal, Earned(u, k))
      {
        SumAppend(db.withdrawals, row, OpenOf(u, k));
      }
    }
  }

  lemma DecideKeeps(db: Db, w: nat, status: WithdrawalStatus)
    requires Inv(db) && w < |db.withdrawals| && IsOpen(db.withdrawals[w]) && status != Paid
    ensures Inv(SetWithdrawal(db, w, status))
  {
    var after := SetWithdrawal(db, w, status);
    SetWithdrawalKeepsBooks(db, w, status);
    SameMoney(db, after);
    forall u: nat, k: string
      ensures Sum(after.withdrawals, OpenOf(u, k)) <= Balance(after.journal, Earned(u, k))
    {
      SumUpdate(db.withdrawals, w, db.withdrawals[w].(status := status), OpenOf(u, k));
    }
  }

  /** Paying out posts the withdrawal once on each side and takes it from what is open. */
  lemma PaidOutMoves(db: Db, w: nat, postings: seq<Posting>)
    requires w < |db.withdrawals| && db.withdrawals[w].status == Requested
    requires postings == WithdrawalPostings(db.withdrawals[w].creator,
                                            Money(db.withdrawals[w].amount, db.withdrawals[w].currency))
    ensures forall account, direction ::
              Hits(postings, account, direction)
              == Hit(account, direction)(postings[0]) + Hit(account, direction)(postings[1])
    ensures forall u: nat, k: string ::
              Sum(PaidOut(db, w).withdrawals, OpenOf(u, k))
              == Sum(db.withdrawals, OpenOf(u, k)) - OpenOf(u, k)(db.withdrawals[w])
  {
    forall account, direction
      ensures Hits(postings, account, direction)
          == Hit(account, direction)(postings[0]) + Hit(account, direction)(postings[1])
    {
      SumOfPair(postings, Hit(account, direction));
    }
    forall u: nat, k: string
      ensures Sum(PaidOut(db, w).withdrawals, OpenOf(u, k))
          == Sum(db.withdrawals, OpenOf(u, k)) - OpenOf(u, k)(db.withdrawals[w])
    {
      SumUpdate(db.withdrawals, w, db.withdrawals[w].(status := Paid), OpenOf(u, k));
    }
  }

  lemma PaidOutKeeps(db: Db, w: nat)
    requires Inv(db) && w < |db.withdrawals| && db.withdrawals[w].status == Requested
    ensures Inv(PaidOut(db, w))
  {
    var row, after := db.withdrawals[w], PaidOut(db, w);
    var postings := WithdrawalPostings(row.creator, Money(row.amount, row.currency));
    PaidOutKeepsBooks(db, w);
    SameMoney(db, after);
    PaidOutMoves(db, w, postings);
    PostedCovers(db, TransactionType.Withdrawal, RowReference(w), postings, after.withdrawals);
  }

  /** Money moved outside is in neither the tables nor the ledger. */
  lemma TransferKeeps(db: Db, transfer: Transfer)
    requires Inv(db)
    ensures Inv(Transferred(db, transfer))
  {
    var after := Transferred(db, transfer);
    SameMoney(db, after);
    forall account, direction ensures BookedSide(after, account, direction) == TableSide(after, account, direction) {
      assert BookedSide(db, account, direction) == TableSide(db, account, direction);
    }
  }
}
