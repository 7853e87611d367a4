/** What no call ever undoes: decided rows stay decided, terms stay frozen, the ledger only grows. */
module History {
  import opened Outcomes
  import opened Sums
  import opened Money
  import opened Entitlement
  import opened LedgerTransactions
  import opened Ledger
  import opened EarningTable
  import opened Payments
  import opened PaymentsBooks
  import opened PaymentsInvariant
  import opened PaymentsTheorems
  import Settlement

  /** Terms are frozen once a campaign has left the draft; a campaign is closed for good. */
  predicate CampaignEvolves(before: Campaign, after: Campaign)
  {
    && after.organization == before.organization
    && (before.status != Draft ==>
          after.currency == before.currency && after.budget == before.budget && after.terms == before.terms
          && after.status != Draft)
    && (before.status == Closed ==> after.status == Closed)
  }

  /** The first decisive event fixes a payment's status. */
  predicate FundingEvolves(before: Funding, after: Funding)
  {
    after == before.(status := after.status) && (before.status != Pending ==> after == before)
  }

  predicate TopUpEvolves(before: TopUp, after: TopUp)
  {
    after == before.(status := after.status) && (before.status != Pending ==> after == before)
  }

  /** Paid and rejected are final. */
  predicate WithdrawalEvolves(before: WithdrawalRow, after: WithdrawalRow)
  {
    after == before.(status := after.status) && (before.status == Paid || before.status == Rejected ==> after == before)
  }

  ghost predicate Evolves(before: Db, after: Db)
  {
    && |before.campaigns| <= |after.campaigns|
    && |before.fundings| <= |after.fundings|
    && |before.topUps| <= |after.topUps|
    && |before.withdrawals| <= |after.withdrawals|
    && (forall i :: 0 <= i < |before.campaigns| ==> CampaignEvolves(before.campaigns[i], after.campaigns[i]))
    && (forall i :: 0 <= i < |before.fundings| ==> FundingEvolves(before.fundings[i], after.fundings[i]))
    && (forall i :: 0 <= i < |before.topUps| ==> TopUpEvolves(before.topUps[i], after.topUps[i]))
    && (forall i :: 0 <= i < |before.withdrawals| ==> WithdrawalEvolves(before.withdrawals[i], after.withdrawals[i]))
    && (forall key :: Accrued(before.earnings, key) <= Accrued(after.earnings, key))
    && before.refunds <= after.refunds
    && before.journal <= after.journal
    && before.unposted <= after.unposted
    && before.sent <= after.sent
  }

  lemma EvolvesTransitive(first: Db, second: Db, third: Db)
    requires Evolves(first, second) && Evolves(second, third)
    ensures Evolves(first, third)
  {
    forall i | 0 <= i < |first.campaigns| ensures CampaignEvolves(first.campaigns[i], third.campaigns[i]) {
      assert CampaignEvolves(first.campaigns[i], second.campaigns[i]);
      assert CampaignEvolves(second.campaigns[i], third.campaigns[i]);
    }
    forall i | 0 <= i < |first.fundings| ensures FundingEvolves(first.fundings[i], third.fundings[i]) {
      assert FundingEvolves(first.fundings[i], second.fundings[i]);
      assert FundingEvolves(second.fundings[i], third.fundings[i]);
    }
    forall i | 0 <= i < |first.topUps| ensures TopUpEvolves(first.topUps[i], third.topUps[i]) {
      assert TopUpEvolves(first.topUps[i], second.topUps[i]);
      assert TopUpEvolves(second.topUps[i], third.topUps[i]);
    }
    forall i | 0 <= i < |first.withdrawals| ensures WithdrawalEvolves(first.withdrawals[i], third.withdrawals[i]) {
      assert WithdrawalEvolves(first.withdrawals[i], second.withdrawals[i]);
      assert WithdrawalEvolves(second.withdrawals[i], third.withdrawals[i]);
    }
    forall key ensures Accrued(first.earnings, key) <= Accrued(third.earnings, key) {
      assert Accrued(first.earnings, key) <= Accrued(second.earnings, key);
    }
  }

  lemma MarkFundingEvolves(db: Db, reference: PaymentReference, succeeded: bool, throws: bool)
    ensures Evolves(db, MarkFunding(db, reference, succeeded, throws))
  {
  }

  lemma MarkTopUpEvolves(db: Db, reference: PaymentReference, succeeded: bool, throws: bool)
    ensures Evolves(db, MarkTopUp(db, reference, succeeded, throws))
  {
  }

  lemma CreditedEvolves(db: Db, c: nat, rows: Earnings, credits: seq<Settlement.Credit>)
    requires c < |db.campaigns|
    requires forall key :: Accrued(db.earnings, key) <= Accrued(rows, key)
    ensures Evolves(db, Credited(db, c, rows, credits))
  {
  }

  lemma SettleEvolves(db: Db, c: nat, readings: Readings)
    requires EarningsOk(db)
    ensures Evolves(db, SettleStep(db, c, readings).db)
  {
    if c < |db.campaigns| {
      CampaignCurrency(db, c);
      var after := PassResult(db, c, readings);
      PassOnlyAdds(PassFor(db, c, readings), db.earnings, PassBudget(db, c), readings.failAt,
                   after.rows);
      CreditedEvolves(db, c, after.rows, after.credits);
    }
  }

  lemma PassOnlyAdds(pass: Settlement.Pass, rows: Earnings, budget: int, failAt: Option<nat>, after: Earnings)
    requires CurrencyOf(rows, pass.campaign, pass.currency)
    requires after == Settlement.Settle(pass, rows, budget, failAt).rows
    ensures forall key :: Accrued(rows, key) <= Accrued(after, key)
  {
    Settlement.PassIsSound(pass, rows, budget, failAt, |pass.creatorIds|);
    forall key ensures Accrued(rows, key) <= Accrued(after, key) {
      if key.campaign == pass.campaign {
        assert 0 <= Settlement.Gain(pass, rows, after, key.creator);
        assert key == EarningKey(pass.campaign, key.creator);
      } else {
        assert RowAt(after, key) == RowAt(rows, key);
      }
    }
  }

  lemma {:induction false} RefundDownEvolves(
    whole: RefundProgress, db: Db, c: nat, n: nat, remaining: int, refunded: int, count: nat, toWallet: bool,
    gateway: nat -> GatewayOutcome)
    requires n <= |db.fundings|
    requires whole == RefundDown(db, c, n, remaining, refunded, count, toWallet, gateway)
    ensures Evolves(db, whole.db)
    decreases n
  {
    if 0 < n && 0 < remaining {
      var f := n - 1;
      var amount, turn := RefundTurn(whole, db, c, f, remaining, refunded, count, toWallet, gateway);
      RefundTurnEvolves(db, f, amount, toWallet, gateway(f), turn.db);
      if !turn.threw {
        RefundDownEvolves(whole, turn.db, c, f, turn.remaining, turn.refunded, turn.count, toWallet, gateway);
        EvolvesTransitive(db, turn.db, whole.db);
      }
    }
  }

  lemma RefundTurnEvolves(db: Db, f: nat, amount: nat, toWallet: bool, outcome: GatewayOutcome, next: Db)
    requires f < |db.fundings|
    requires next == if amount == 0 then db else RefundOne(db, f, amount, toWallet, outcome)
    ensures Evolves(db, next)
  {
    if 0 < amount {
      if toWallet {
        WalletReturnEvolves(db, f, amount, outcome.PostingFails?);
      } else {
        CardRefundEvolves(db, f, amount, outcome);
      }
    }
  }

  lemma WalletReturnEvolves(db: Db, f: nat, amount: nat, throws: bool)
    requires f < |db.fundings|
    ensures Evolves(db, ReturnToWallet(db, f, amount, throws))
  {
  }

  lemma CardRefundEvolves(db: Db, f: nat, amount: nat, outcome: GatewayOutcome)
    requires f < |db.fundings|
    ensures Evolves(db, RefundToCard(db, f, amount, outcome))
  {
  }

  lemma RefundEvolves(db: Db, c: nat, gateway: nat -> GatewayOutcome)
    ensures Evolves(db, RefundStep(db, c, gateway).db)
  {
    if c < |db.campaigns| {
      RefundDownEvolves(RefundRun(db, c, gateway), db, c, |db.fundings|, RefundableMinor(db, c), 0, 0,
                        db.campaigns[c].currency == WALLET_CURRENCY, gateway);
    }
  }

  lemma ClosedRowEvolves(db: Db, c: nat)
    requires c < |db.campaigns| && db.campaigns[c].status == Published
    ensures Evolves(db, SetCampaign(db, c, db.campaigns[c].(status := Closed)))
  {
  }

  lemma ReturnEvolves(db: Db, c: nat, readings: Readings, gateway: nat -> GatewayOutcome)
    requires EarningsOk(db) && c < |db.campaigns|
    ensures Evolves(db, ReturnUnspent(db, c, readings, gateway))
  {
    var settled := SettleStep(db, c, readings).db;
    SettleEvolves(db, c, readings);
    RefundEvolves(settled, c, gateway);
    EvolvesTransitive(db, settled, RefundStep(settled, c, gateway).db);
  }

  lemma CloseEvolves(db: Db, c: nat, readings: Readings, gateway: nat -> GatewayOutcome)
    requires Inv(db)
    ensures Evolves(db, CloseStep(db, c, readings, gateway).db)
  {
    if c < |db.campaigns| && db.campaigns[c].status == Published {
      var closed := SetCampaign(db, c, db.campaigns[c].(status := Closed));
      assert EarningsOk(closed) by {
        CampaignChangeKeeps(db, c, db.campaigns[c].(status := Closed));
      }
      ClosedRowEvolves(db, c);
      ReturnEvolves(closed, c, readings, gateway);
      EvolvesTransitive(db, closed, ReturnUnspent(closed, c, readings, gateway));
    }
  }

  lemma AddFundingEvolves(db: Db, row: Funding)
    ensures Evolves(db, AddFunding(db, row))
  {
  }

  lemma FundCampaignEvolves(db: Db, c: nat, amount: int, feeBps: Bps, id: nat, bypass: bool, throws: bool)
    ensures Evolves(db, CreateFundingStep(db, c, amount, feeBps, id, bypass, throws).db)
  {
    var reference := if bypass then Bypass(id) else Checkout(id);
    if 0 < amount && c < |db.campaigns| && FindFunding(db.fundings, reference).None? {
      FeeWithinBudget(amount, feeBps);
      var row := Funding(c, db.campaigns[c].organization, amount, FeeMinor(amount, feeBps), db.campaigns[c].currency,
                         Pending, reference);
      AddFundingEvolves(db, row);
      MarkFundingEvolves(AddFunding(db, row), reference, true, throws);
      EvolvesTransitive(db, AddFunding(db, row), MarkFunding(AddFunding(db, row), reference, true, throws));
    }
  }

  lemma TopUpCallEvolves(db: Db, organization: nat, amount: int, id: nat, bypass: bool, throws: bool)
    ensures Evolves(db, CreateTopUpStep(db, organization, amount, id, bypass, throws).db)
  {
    var reference := if bypass then Bypass(id) else Checkout(id);
    if MIN_TOP_UP_MINOR <= amount <= MAX_TOP_UP_MINOR {
      var created := db.(topUps := db.topUps + [TopUp(organization, amount, WALLET_CURRENCY, Pending, reference)]);
      assert Evolves(db, created);
      MarkTopUpEvolves(created, reference, true, throws);
      EvolvesTransitive(db, created, MarkTopUp(created, reference, true, throws));
    }
  }

  lemma WebhookEvolves(db: Db, reference: PaymentReference, succeeded: bool, throws: bool)
    ensures Evolves(db, WebhookStep(db, reference, succeeded, throws).db)
  {
    var marked := MarkFunding(db, reference, succeeded, throws);
    MarkFundingEvolves(db, reference, succeeded, throws);
    MarkTopUpEvolves(marked, reference, succeeded, throws);
    EvolvesTransitive(db, marked, MarkTopUp(marked, reference, succeeded, throws));
  }

  lemma CreateCampaignEvolves(db: Db, organization: nat, currency: Currency, budget: nat, terms: Terms)
    ensures Evolves(db, CreateCampaignStep(db, organization, currency, budget, terms).db)
  {
  }

  lemma RequestEvolves(db: Db, creator: nat, amount: int, currency: Currency, destination: Option<nat>)
    ensures Evolves(db, RequestStep(db, creator, amount, currency, destination).db)
  {
  }

  lemma UpdateEvolves(db: Db, c: nat, patch: Patch)
    ensures Evolves(db, UpdateStep(db, c, patch).db)
  {
  }

  lemma PublishEvolves(db: Db, c: nat, planAllows: bool)
    ensures Evolves(db, PublishStep(db, c, planAllows).db)
  {
  }

  lemma WalletPaidEvolves(db: Db, row: Funding, throws: bool)
    ensures Evolves(db, WalletPaid(db, row, throws))
  {
  }

  lemma WalletCallEvolves(db: Db, c: nat, amount: int, feeBps: Bps, id: nat, throws: bool)
    ensures Evolves(db, FundFromWalletStep(db, c, amount, feeBps, id, throws).db)
  {
    var after := FundFromWalletStep(db, c, amount, feeBps, id, throws).db;
    if after != db {
      FeeWithinBudget(amount, feeBps);
      WalletPaidEvolves(db, Funding(c, db.campaigns[c].organization, amount, FeeMinor(amount, feeBps),
                                    WALLET_CURRENCY, Succeeded, FromWallet(id)), throws);
    }
  }

  lemma DecideEvolves(db: Db, w: nat, from: set<WithdrawalStatus>, status: WithdrawalStatus)
    requires from <= {Requested, Held}
    ensures Evolves(db, DecideStep(db, w, from, status).db)
  {
  }

  lemma ApproveEvolves(db: Db, w: nat, payout: PayoutOutcome)
    ensures Evolves(db, ApproveStep(db, w, payout).db)
  {
  }

  lemma PaymentCallEvolves(db: Db, call: Call)
    requires call.CreateFunding? || call.FundFromWallet? || call.CreateTopUp? || call.Webhook? || call.RefundUnspent?
    ensures Evolves(db, Step(db, call).db)
  {
    match call
    case CreateFunding(c, amount, feeBps, id, bypass, throws) =>
      FundCampaignEvolves(db, c, amount, feeBps, id, bypass, throws);
    case FundFromWallet(c, amount, feeBps, id, throws) => WalletCallEvolves(db, c, amount, feeBps, id, throws);
    case CreateTopUp(organization, amount, id, bypass, throws) =>
      TopUpCallEvolves(db, organization, amount, id, bypass, throws);
    case Webhook(reference, succeeded, throws) => WebhookEvolves(db, reference, succeeded, throws);
    case RefundUnspent(c, gateway) => RefundEvolves(db, c, gateway);
  }

  lemma DecisionEvolves(db: Db, call: Call)
    requires call.HoldWithdrawal? || call.ReleaseWithdrawal? || call.RejectWithdrawal?
    ensures Evolves(db, Step(db, call).db)
  {
    match call
    case HoldWithdrawal(w) => DecideEvolves(db, w, {Requested}, Held);
    case ReleaseWithdrawal(w) => DecideEvolves(db, w, {Held}, Requested);
    case RejectWithdrawal(w) => DecideEvolves(db, w, {Requested, Held}, Rejected);
  }

  lemma WithdrawalCallEvolves(db: Db, call: Call)
    requires call.RequestWithdrawal? || call.HoldWithdrawal? || call.ReleaseWithdrawal? || call.RejectWithdrawal?
             || call.ApproveWithdrawal?
    ensures Evolves(db, Step(db, call).db)
  {
    match call
    case RequestWithdrawal(creator, amount, currency, destination) =>
      RequestEvolves(db, creator, amount, currency, destination);
    case ApproveWithdrawal(w, payout) => ApproveEvolves(db, w, payout);
    case _ => DecisionEvolves(db, call);
  }

  lemma StepEvolves(db: Db, call: Call)
    requires Inv(db)
    ensures Evolves(db, Step(db, call).db)
  {
    match call
    case CreateCampaign(organization, currency, budget, terms) =>
      CreateCampaignEvolves(db, organization, currency, budget, terms);
    case UpdateCampaign(c, patch) => UpdateEvolves(db, c, patch);
    case Publish(c, planAllows) => PublishEvolves(db, c, planAllows);
    case Close(c, readings, gateway) => CloseEvolves(db, c, readings, gateway);
    case Settle(c, readings) => SettleEvolves(db, c, readings);
    case _ =>
      if call.RequestWithdrawal? || call.HoldWithdrawal? || call.ReleaseWithdrawal? || call.RejectWithdrawal?
         || call.ApproveWithdrawal?
      {
        WithdrawalCallEvolves(db, call);
      } else {
        PaymentCallEvolves(db, call);
      }
  }

  ghost function RunFrom(db: Db, calls: seq<Call>): Db
    decreases calls
  {
    if calls == [] then db else RunFrom(Step(db, calls[0]).db, calls[1..])
  }

  /** Whatever happens next, history stands. */
  lemma {:induction false} HistoryStands(db: Db, calls: seq<Call>)
    requires Reachable(db)
    ensures Evolves(db, RunFrom(db, calls))
    decreases calls
  {
    if calls != [] {
      var next := Step(db, calls[0]).db;
      ReachableKeeps(db);
      StepEvolves(db, calls[0]);
      ReachableStep(db, calls[0]);
      HistoryStands(next, calls[1..]);
      EvolvesTransitive(db, next, RunFrom(next, calls[1..]));
    }
  }

  /** A refused call leaves everything as it was; only a thrown posting or gateway call leaves part of its work. */
  lemma RefusalsChangeNothing(db: Db, call: Call)
    requires Step(db, call).outcome.Refused?
    requires Step(db, call).outcome.reason != Threw
    ensures Step(db, call).db == db
  {
  }

  /** A payout that throws leaves every table and the ledger alone, whether or not the money was sent. */
  lemma ThrownPayoutStoresNothing(db: Db, w: nat, payout: PayoutOutcome)
    requires Step(db, ApproveWithdrawal(w, payout)).outcome.Refused?
    ensures Step(db, ApproveWithdrawal(w, payout)).db.(sent := db.sent) == db
  {
  }

  // Creators' money.

  function InStatus(creator: nat, currency: string, status: WithdrawalStatus): WithdrawalRow -> int
  {
    (row: WithdrawalRow) =>
      if row.creator == creator && row.currency == currency && row.status == status then row.amount else 0
  }

  /** What the wallet screen shows a creator (src/modules/payments/application/wallet.service.ts:115-131). */
  datatype WalletView = WalletView(available: int, pending: int, held: int, lifetimeEarned: int)

  function ViewWallet(db: Db, creator: nat, currency: string): WalletView
  {
    var pending := Sum(db.withdrawals, InStatus(creator, currency, Requested));
    var held := Sum(db.withdrawals, InStatus(creator, currency, Held));
    WalletView(Balance(db.journal, Earned(creator, currency)) - pending - held, pending, held,
               SideTotal(db.journal, Earned(creator, currency), Credit))
  }

  lemma WithdrawalsByStatus(rows: seq<WithdrawalRow>, creator: nat, currency: string)
    ensures Sum(rows, PaidTo(creator, currency)) == Sum(rows, InStatus(creator, currency, Paid))
    ensures Sum(rows, OpenOf(creator, currency))
            == Sum(rows, InStatus(creator, currency, Requested)) + Sum(rows, InStatus(creator, currency, Held))
    ensures 0 <= Sum(rows, InStatus(creator, currency, Requested)) && 0 <= Sum(rows, InStatus(creator, currency, Held))
  {
    SumSame(rows, PaidTo(creator, currency), InStatus(creator, currency, Paid));
    SumSplit(rows, OpenOf(creator, currency), InStatus(creator, currency, Requested),
             InStatus(creator, currency, Held));
    SumNonNegative(rows, InStatus(creator, currency, Requested));
    SumNonNegative(rows, InStatus(creator, currency, Held));
  }

  /** Every unit a creator ever earned is available, pending, held or paid; none of these is overdrawn. */
  lemma WalletViewAddsUp(db: Db, creator: nat, currency: string)
    requires Reachable(db)
    ensures
      var view := ViewWallet(db, creator, currency);
      && view.lifetimeEarned
         == view.available + view.pending + view.held + Sum(db.withdrawals, InStatus(creator, currency, Paid))
      && view.lifetimeEarned == SumAccrued(db.earnings, OfCreator(creator, currency))
      && view.pending == Sum(db.withdrawals, InStatus(creator, currency, Requested))
      && view.held == Sum(db.withdrawals, InStatus(creator, currency, Held))
      && 0 <= view.available && 0 <= view.pending && 0 <= view.held
  {
    ReachableKeeps(db);
    ReachableLost(db);
    CreatorSides(db, creator, currency);
    WithdrawalsByStatus(db.withdrawals, creator, currency);
  }

  /** No run of calls overdraws a brand's wallet. */
  lemma WalletIsNeverOverdrawn(db: Db, organization: nat, currency: string)
    requires Reachable(db)
    ensures 0 <= Balance(db.journal, Wallet(organization, currency))
  {
    ReachableKeeps(db);
  }
}
