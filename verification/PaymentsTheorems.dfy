/** What holds after every run of calls, and what single calls achieve from any reachable state. */
module PaymentsTheorems {
  import opened Outcomes
  import opened Sums
  import opened Money
  import opened Entitlement
  import opened LedgerTransactions
  import opened Ledger
  import opened EarningTable
  import opened Payments
  import opened PaymentsBooks
  import opened PaymentsInvariant
  import opened LostPostings
  import Settlement

  lemma FundCampaignKeeps(db: Db, c: nat, amount: int, feeBps: Bps, id: nat, bypass: bool, throws: bool)
    requires Inv(db)
    ensures Inv(CreateFundingStep(db, c, amount, feeBps, id, bypass, throws).db)
  {
    var reference := if bypass then Bypass(id) else Checkout(id);
    if 0 < amount && c < |db.campaigns| && FindFunding(db.fundings, reference).None? {
      FeeWithinBudget(amount, feeBps);
      var row := Funding(c, db.campaigns[c].organization, amount, FeeMinor(amount, feeBps), db.campaigns[c].currency,
                         Pending, reference);
      AddFundingKeeps(db, row);
      MarkFundingKeeps(AddFunding(db, row), reference, true, throws);
    }
  }

  lemma PayFromWalletKeeps(db: Db, c: nat, amount: int, feeBps: Bps, id: nat, throws: bool)
    requires Inv(db)
    ensures Inv(FundFromWalletStep(db, c, amount, feeBps, id, throws).db)
  {
    if 0 < amount && c < |db.campaigns| && FindFunding(db.fundings, FromWallet(id)).None? {
      FeeWithinBudget(amount, feeBps);
      var row := Funding(c, db.campaigns[c].organization, amount, FeeMinor(amount, feeBps), WALLET_CURRENCY, Succeeded,
                         FromWallet(id));
      if row.amount + row.fee <= Balance(db.journal, Wallet(row.organization, WALLET_CURRENCY)) {
        WalletPaidKeeps(db, row, throws);
      }
    }
  }

  lemma TopUpKeeps(db: Db, organization: nat, amount: int, id: nat, bypass: bool, throws: bool)
    requires Inv(db)
    ensures Inv(CreateTopUpStep(db, organization, amount, id, bypass, throws).db)
  {
    var reference := if bypass then Bypass(id) else Checkout(id);
    if MIN_TOP_UP_MINOR <= amount <= MAX_TOP_UP_MINOR && FindTopUp(db.topUps, reference).None? {
      var row := TopUp(organization, amount, WALLET_CURRENCY, Pending, reference);
      AddTopUpKeeps(db, row);
      MarkTopUpKeeps(db.(topUps := db.topUps + [row]), reference, true, throws);
    }
  }

  lemma EditKeeps(db: Db, c: nat, patch: Patch)
    requires Inv(db)
    ensures Inv(UpdateStep(db, c, patch).db)
  {
    if c < |db.campaigns| && db.campaigns[c].status == Draft {
      CampaignChangeKeeps(db, c, Patched(db.campaigns[c], patch));
    }
  }

  lemma PublishKeeps(db: Db, c: nat, planAllows: bool)
    requires Inv(db)
    ensures Inv(PublishStep(db, c, planAllows).db)
  {
    if PublishStep(db, c, planAllows).outcome.Done? {
      CampaignChangeKeeps(db, c, db.campaigns[c].(status := Published));
    }
  }

  lemma StatusChangeKeeps(db: Db, w: nat, from: set<WithdrawalStatus>, status: WithdrawalStatus)
    requires Inv(db) && from <= {Requested, Held} && status != Paid
    ensures Inv(DecideStep(db, w, from, status).db)
  {
    if DecideStep(db, w, from, status).outcome.Done? {
      DecideKeeps(db, w, status);
    }
  }

  lemma WebhookKeeps(db: Db, reference: PaymentReference, succeeded: bool, throws: bool)
    requires Inv(db)
    ensures Inv(WebhookStep(db, reference, succeeded, throws).db)
  {
    MarkFundingKeeps(db, reference, succeeded, throws);
    MarkTopUpKeeps(MarkFunding(db, reference, succeeded, throws), reference, succeeded, throws);
  }

  lemma PaymentCallKeeps(db: Db, call: Call)
    requires Inv(db)
    requires call.CreateFunding? || call.FundFromWallet? || call.CreateTopUp? || call.Webhook?
    ensures Inv(Step(db, call).db)
  {
    match call
    case CreateFunding(c, amount, feeBps, id, bypass, throws) =>
      FundCampaignKeeps(db, c, amount, feeBps, id, bypass, throws);
    case FundFromWallet(c, amount, feeBps, id, throws) => PayFromWalletKeeps(db, c, amount, feeBps, id, throws);
    case CreateTopUp(organization, amount, id, bypass, throws) =>
      TopUpKeeps(db, organization, amount, id, bypass, throws);
    case Webhook(reference, succeeded, throws) => WebhookKeeps(db, reference, succeeded, throws);
  }

  lemma ApproveKeeps(db: Db, w: nat, payout: PayoutOutcome)
    requires Inv(db)
    ensures Inv(ApproveStep(db, w, payout).db)
  {
    if w < |db.withdrawals| && db.withdrawals[w].status == Requested && db.withdrawals[w].destination.Some? {
      match payout
      case PayoutPosted => PaidOutKeeps(db, w);
      case PayoutUnposted => TransferKeeps(db, Payout(w, db.withdrawals[w].amount, false));
      case PayoutThrows =>
    }
  }

  lemma DecisionKeeps(db: Db, call: Call)
    requires Inv(db) && (call.HoldWithdrawal? || call.ReleaseWithdrawal? || call.RejectWithdrawal?)
    ensures Inv(Step(db, call).db)
  {
    match call
    case HoldWithdrawal(w) => StatusChangeKeeps(db, w, {Requested}, Held);
    case ReleaseWithdrawal(w) => StatusChangeKeeps(db, w, {Held}, Requested);
    case RejectWithdrawal(w) => StatusChangeKeeps(db, w, {Requested, Held}, Rejected);
  }

  lemma WithdrawalCallKeeps(db: Db, call: Call)
    requires Inv(db)
    requires call.RequestWithdrawal? || call.HoldWithdrawal? || call.ReleaseWithdrawal? || call.RejectWithdrawal?
             || call.ApproveWithdrawal?
    ensures Inv(Step(db, call).db)
  {
    match call
    case RequestWithdrawal(creator, amount, currency, destination) =>
      RequestKeeps(db, creator, amount, currency, destination);
    case ApproveWithdrawal(w, payout) => ApproveKeeps(db, w, payout);
    case _ => DecisionKeeps(db, call);
  }

  lemma CampaignCallKeeps(db: Db, call: Call)
    requires Inv(db)
    requires call.CreateCampaign? || call.UpdateCampaign? || call.Publish? || call.Close?
    ensures Inv(Step(db, call).db)
  {
    match call
    case CreateCampaign(organization, currency, budget, terms) =>
      AddCampaignKeeps(db, Campaign(organization, currency, budget, terms, Draft));
    case UpdateCampaign(c, patch) => EditKeeps(db, c, patch);
    case Publish(c, planAllows) => PublishKeeps(db, c, planAllows);
    case Close(c, readings, gateway) => CloseKeeps(db, c, readings, gateway);
  }

  lemma SettleCallKeeps(db: Db, c: nat, readings: Readings)
    requires Inv(db)
    ensures Inv(SettleStep(db, c, readings).db)
  {
    if c < |db.campaigns| {
      SettleKeeps(db, c, readings);
    }
  }

  lemma CreditCallKeeps(db: Db, call: Call)
    requires Inv(db) && (call.Settle? || call.RefundUnspent?)
    ensures Inv(Step(db, call).db)
  {
    match call
    case Settle(c, readings) => SettleCallKeeps(db, c, readings);
    case RefundUnspent(c, gateway) => RefundStepKeeps(db, c, gateway);
  }

  lemma StepKeeps(db: Db, call: Call)
    requires Inv(db)
    ensures Inv(Step(db, call).db)
  {
    if call.CreateCampaign? || call.UpdateCampaign? || call.Publish? || call.Close? {
      CampaignCallKeeps(db, call);
    } else if call.CreateFunding? || call.FundFromWallet? || call.CreateTopUp? || call.Webhook? {
      PaymentCallKeeps(db, call);
    } else if call.Settle? || call.RefundUnspent? {
      CreditCallKeeps(db, call);
    } else {
      WithdrawalCallKeeps(db, call);
    }
  }

  lemma {:induction false} RunKeeps(calls: seq<Call>)
    ensures Inv(Run(calls))
  {
    if calls == [] {
      EmptyInv();
    } else {
      RunKeeps(calls[..|calls| - 1]);
      StepKeeps(Run(calls[..|calls| - 1]), calls[|calls| - 1]);
    }
  }

  lemma {:induction false} RunKeepsLost(calls: seq<Call>)
    ensures LostOk(Run(calls))
  {
    if calls != [] {
      RunKeeps(calls[..|calls| - 1]);
      RunKeepsLost(calls[..|calls| - 1]);
      StepKeepsLost(Run(calls[..|calls| - 1]), calls[|calls| - 1]);
    }
  }

  /** A state some run of calls, from empty tables, leads to. */
  ghost predicate Reachable(db: Db)
  {
    exists calls: seq<Call> :: db == Run(calls)
  }

  lemma ReachableKeeps(db: Db)
    requires Reachable(db)
    ensures Inv(db)
  {
    var calls: seq<Call> :| db == Run(calls);
    RunKeeps(calls);
  }

  lemma ReachableLost(db: Db)
    requires Reachable(db)
    ensures LostOk(db)
  {
    var calls: seq<Call> :| db == Run(calls);
    RunKeepsLost(calls);
  }

  lemma ReachableStep(db: Db, call: Call)
    requires Reachable(db)
    ensures Reachable(Step(db, call).db)
  {
    var calls: seq<Call> :| db == Run(calls);
    var longer := calls + [call];
    assert longer[..|longer| - 1] == calls;
    assert Run(longer) == Step(db, call).db;
  }

  // The ledger is the tables, but for the lines it lacks.


  function PaidIn(organization: nat, currency: string): Funding -> int
  {
    (row: Funding) =>
      if row.status == Succeeded && row.organization == organization && row.currency == currency then row.amount else 0
  }

  function PaidFromWallet(organization: nat, currency: string): Funding -> int
  {
    (row: Funding) =>
      if row.status == Succeeded && row.reference.FromWallet? && row.organization == organization
         && row.currency == currency
      then row.amount + row.fee else 0
  }

  function GivenBack(organization: nat, currency: string): Refund -> int
  {
    (row: Refund) =>
      if row.status == Succeeded && row.organization == organization && row.currency == currency then row.amount else 0
  }

  function GivenBackToWallet(organization: nat, currency: string): Refund -> int
  {
    (row: Refund) =>
      if row.status == Succeeded && row.gatewayRefund.None? && row.organization == organization
         && row.currency == currency
      then row.amount else 0
  }

  function ToppedUp(organization: nat, currency: string): TopUp -> int
  {
    (row: TopUp) =>
      if row.status == Succeeded && row.organization == organization && row.currency == currency then row.amount else 0
  }

  function PaidTo(creator: nat, currency: string): WithdrawalRow -> int
  {
    (row: WithdrawalRow) =>
      if row.status == Paid && row.creator == creator && row.currency == currency then row.amount else 0
  }

  function OfBrand(campaigns: seq<Campaign>, organization: nat, currency: string): Filter
  {
    (key: EarningKey, k: string) =>
      key.campaign < |campaigns| && campaigns[key.campaign].organization == organization && k == currency
  }

  function OfCreator(creator: nat, currency: string): Filter
  {
    (key: EarningKey, k: string) => key.creator == creator && k == currency
  }

  lemma FundingRowHits(row: Funding, account: AccountKey, direction: Direction)
    requires account.OwnerAccount?
    ensures FundingHits(account, direction)(row) ==
            match (account.ownerType, direction)
            case (Organization, Credit) => PaidIn(account.ownerId, account.currencyCode)(row)
            case (OrganizationWallet, Debit) => PaidFromWallet(account.ownerId, account.currencyCode)(row)
            case _ => 0
  {
    var postings := FundingRowPostings(row);
    if postings != [] {
      PostingEffect([], CampaignFunding, None, postings, account, direction);
    }
  }

  lemma RefundRowHits(row: Refund, account: AccountKey, direction: Direction)
    requires account.OwnerAccount?
    ensures RefundHits(account, direction)(row) ==
            match (account.ownerType, direction)
            case (Organization, Debit) => GivenBack(account.ownerId, account.currencyCode)(row)
            case (OrganizationWallet, Credit) => GivenBackToWallet(account.ownerId, account.currencyCode)(row)
            case _ => 0
  {
    if RefundRowPostings(row) != [] {
      SumOfPair(RefundRowPostings(row), Hit(account, direction));
    }
  }

  lemma TopUpRowHits(row: TopUp, account: AccountKey, direction: Direction)
    requires account.OwnerAccount?
    ensures TopUpHits(account, direction)(row) ==
            if account.ownerType == OrganizationWallet && direction == Credit
            then ToppedUp(account.ownerId, account.currencyCode)(row) else 0
  {
    if TopUpRowPostings(row) != [] {
      SumOfPair(TopUpRowPostings(row), Hit(account, direction));
    }
  }

  lemma WithdrawalRowHits(row: WithdrawalRow, account: AccountKey, direction: Direction)
    requires account.OwnerAccount?
    ensures WithdrawalHits(account, direction)(row) ==
            if account.ownerType == Creator && direction == Debit
            then PaidTo(account.ownerId, account.currencyCode)(row) else 0
  {
    if WithdrawalRowPostings(row) != [] {
      SumOfPair(WithdrawalRowPostings(row), Hit(account, direction));
    }
  }

  /**
    A brand's committed money: funded, less refunded, less accrued, each by the currency of its row. The ledger
    has it, but for the lines that were lost.
   */
  lemma BrandLedgerAgrees(db: Db, organization: nat, currency: string)
    requires Reachable(db)
    ensures
      var account := Committed(organization, currency);
      && BookedSide(db, account, Credit) == Sum(db.fundings, PaidIn(organization, currency))
      && BookedSide(db, account, Debit)
         == Sum(db.refunds, GivenBack(organization, currency))
            + SumAccrued(db.earnings, OfBrand(db.campaigns, organization, currency))
  {
    ReachableKeeps(db);
    BrandSides(db, organization, currency);
  }

  lemma BrandSides(db: Db, organization: nat, currency: string)
    requires Books(db)
    ensures
      var account := Committed(organization, currency);
      && BookedSide(db, account, Credit) == Sum(db.fundings, PaidIn(organization, currency))
      && BookedSide(db, account, Debit)
         == Sum(db.refunds, GivenBack(organization, currency))
            + SumAccrued(db.earnings, OfBrand(db.campaigns, organization, currency))
  {
    var account := Committed(organization, currency);
    forall row: Funding, direction {:trigger FundingHits(account, direction)(row)}
      ensures FundingHits(account, direction)(row) == if direction == Credit then PaidIn(organization, currency)(row)
          else 0
    {
      FundingRowHits(row, account, direction);
    }
    forall row: Refund, direction {:trigger RefundHits(account, direction)(row)}
      ensures RefundHits(account, direction)(row) == if direction == Debit then GivenBack(organization, currency)(row)
          else 0
    {
      RefundRowHits(row, account, direction);
    }
    forall row: TopUp, direction {:trigger TopUpHits(account, direction)(row)}
      ensures TopUpHits(account, direction)(row) == 0
    {
      TopUpRowHits(row, account, direction);
    }
    forall row: WithdrawalRow, direction {:trigger WithdrawalHits(account, direction)(row)}
      ensures WithdrawalHits(account, direction)(row) == 0
    {
      WithdrawalRowHits(row, account, direction);
    }
    SumSame(db.fundings, FundingHits(account, Credit), PaidIn(organization, currency));
    SumZero(db.fundings, FundingHits(account, Debit));
    SumZero(db.refunds, RefundHits(account, Credit));
    SumSame(db.refunds, RefundHits(account, Debit), GivenBack(organization, currency));
    SumZero(db.topUps, TopUpHits(account, Credit));
    SumZero(db.topUps, TopUpHits(account, Debit));
    SumZero(db.withdrawals, WithdrawalHits(account, Credit));
    SumZero(db.withdrawals, WithdrawalHits(account, Debit));
    SameFilter(db.earnings, EarningSide(db.campaigns, account, Debit), OfBrand(db.campaigns, organization, currency));
    EmptyFilter(db.earnings, EarningSide(db.campaigns, account, Credit));
    assert BookedSide(db, account, Credit) == TableSide(db, account, Credit);
    assert BookedSide(db, account, Debit) == TableSide(db, account, Debit);
  }

  lemma SameFilter(rows: Earnings, first: Filter, second: Filter)
    requires forall key :: key in rows ==> first(key, rows[key].currency) == second(key, rows[key].currency)
    ensures SumAccrued(rows, first) == SumAccrued(rows, second)
  {
    SetSumSame(rows.Keys, Contribution(rows, first), Contribution(rows, second));
  }

  lemma EmptyFilter(rows: Earnings, filter: Filter)
    requires forall key :: key in rows ==> !filter(key, rows[key].currency)
    ensures SumAccrued(rows, filter) == 0
  {
    SetSumZero(rows.Keys, Contribution(rows, filter));
  }

  /** A brand's wallet: top-ups and returns, less campaign payments with their fees; again but for lost lines. */
  lemma WalletLedgerAgrees(db: Db, organization: nat, currency: string)
    requires Reachable(db)
    ensures
      BookedBalance(db, Wallet(organization, currency))
      == Sum(db.topUps, ToppedUp(organization, currency))
         + Sum(db.refunds, GivenBackToWallet(organization, currency))
         - Sum(db.fundings, PaidFromWallet(organization, currency))
  {
    ReachableKeeps(db);
    WalletSides(db, organization, currency);
  }

  lemma WalletSides(db: Db, organization: nat, currency: string)
    requires Books(db)
    ensures BookedBalance(db, Wallet(organization, currency))
            == Sum(db.topUps, ToppedUp(organization, currency))
               + Sum(db.refunds, GivenBackToWallet(organization, currency))
               - Sum(db.fundings, PaidFromWallet(organization, currency))
  {
    var account := Wallet(organization, currency);
    forall row: Funding, direction {:trigger FundingHits(account, direction)(row)}
      ensures FundingHits(account, direction)(row)
              == if direction == Debit then PaidFromWallet(organization, currency)(row) else 0
    {
      FundingRowHits(row, account, direction);
    }
    forall row: Refund, direction {:trigger RefundHits(account, direction)(row)}
      ensures RefundHits(account, direction)(row)
              == if direction == Credit then GivenBackToWallet(organization, currency)(row) else 0
    {
      RefundRowHits(row, account, direction);
    }
    forall row: TopUp, direction {:trigger TopUpHits(account, direction)(row)}
      ensures TopUpHits(account, direction)(row) == if direction == Credit then ToppedUp(organization, currency)(row)
          else 0
    {
      TopUpRowHits(row, account, direction);
    }
    forall row: WithdrawalRow, direction {:trigger WithdrawalHits(account, direction)(row)}
      ensures WithdrawalHits(account, direction)(row) == 0
    {
      WithdrawalRowHits(row, account, direction);
    }
    SumZero(db.fundings, FundingHits(account, Credit));
    SumSame(db.fundings, FundingHits(account, Debit), PaidFromWallet(organization, currency));
    SumSame(db.refunds, RefundHits(account, Credit), GivenBackToWallet(organization, currency));
    SumZero(db.refunds, RefundHits(account, Debit));
    SumSame(db.topUps, TopUpHits(account, Credit), ToppedUp(organization, currency));
    SumZero(db.topUps, TopUpHits(account, Debit));
    SumZero(db.withdrawals, WithdrawalHits(account, Credit));
    SumZero(db.withdrawals, WithdrawalHits(account, Debit));
    EmptyFilter(db.earnings, EarningSide(db.campaigns, account, Debit));
    EmptyFilter(db.earnings, EarningSide(db.campaigns, account, Credit));
    assert BookedSide(db, account, Credit) == TableSide(db, account, Credit);
    assert BookedSide(db, account, Debit) == TableSide(db, account, Debit);
  }

  /** A creator is credited exactly what has accrued and debited exactly what was paid out: no line is lost here. */
  lemma CreatorLedgerAgrees(db: Db, creator: nat, currency: string)
    requires Reachable(db)
    ensures
      && SideTotal(db.journal, Earned(creator, currency), Credit)
          == SumAccrued(db.earnings, OfCreator(creator, currency))
      && SideTotal(db.journal, Earned(creator, currency), Debit) == Sum(db.withdrawals, PaidTo(creator, currency))
  {
    ReachableKeeps(db);
    ReachableLost(db);
    CreatorSides(db, creator, currency);
  }

  lemma NoneLostFor(db: Db, creator: nat, currency: string)
    requires LostOk(db)
    ensures SideTotal(db.unposted, Earned(creator, currency), Credit) == 0
    ensures SideTotal(db.unposted, Earned(creator, currency), Debit) == 0
  {
    forall i, direction | 0 <= i < |db.unposted|
      ensures SideWeight(Earned(creator, currency), direction)(db.unposted[i]) == 0
    {
      assert LostLine(db.unposted[i].account, db.unposted[i].amount.amountMinor);
    }
    SumZero(db.unposted, SideWeight(Earned(creator, currency), Credit));
    SumZero(db.unposted, SideWeight(Earned(creator, currency), Debit));
  }

  lemma CreatorSides(db: Db, creator: nat, currency: string)
    requires Books(db) && LostOk(db)
    ensures SideTotal(db.journal, Earned(creator, currency), Credit)
        == SumAccrued(db.earnings, OfCreator(creator, currency))
    ensures SideTotal(db.journal, Earned(creator, currency), Debit) == Sum(db.withdrawals, PaidTo(creator, currency))
  {
    var account := Earned(creator, currency);
    forall row: Funding, direction {:trigger FundingHits(account, direction)(row)}
      ensures FundingHits(account, direction)(row) == 0
    {
      FundingRowHits(row, account, direction);
    }
    forall row: Refund, direction {:trigger RefundHits(account, direction)(row)}
      ensures RefundHits(account, direction)(row) == 0
    {
      RefundRowHits(row, account, direction);
    }
    forall row: TopUp, direction {:trigger TopUpHits(account, direction)(row)}
      ensures TopUpHits(account, direction)(row) == 0
    {
      TopUpRowHits(row, account, direction);
    }
    forall row: WithdrawalRow, direction {:trigger WithdrawalHits(account, direction)(row)}
      ensures WithdrawalHits(account, direction)(row) == if direction == Debit then PaidTo(creator, currency)(row)
          else 0
    {
      WithdrawalRowHits(row, account, direction);
    }
    SumZero(db.fundings, FundingHits(account, Credit));
    SumZero(db.fundings, FundingHits(account, Debit));
    SumZero(db.refunds, RefundHits(account, Credit));
    SumZero(db.refunds, RefundHits(account, Debit));
    SumZero(db.topUps, TopUpHits(account, Credit));
    SumZero(db.topUps, TopUpHits(account, Debit));
    SumZero(db.withdrawals, WithdrawalHits(account, Credit));
    SumSame(db.withdrawals, WithdrawalHits(account, Debit), PaidTo(creator, currency));
    SameFilter(db.earnings, EarningSide(db.campaigns, account, Credit), OfCreator(creator, currency));
    EmptyFilter(db.earnings, EarningSide(db.campaigns, account, Debit));
    NoneLostFor(db, creator, currency);
    assert BookedSide(db, account, Credit) == TableSide(db, account, Credit);
    assert BookedSide(db, account, Debit) == TableSide(db, account, Debit);
  }
}
