/**
  A brand's committed money campaign by campaign: funded, less refunded, less accrued. The ledger keeps it
  by the currency of each funding, a campaign by its own currency, and a draft's currency can be edited
  after funding; as long as nobody does that, the two are the same money.
 */
module BrandBalance {
  import opened Outcomes
  import opened Sums
  import opened Money
  import opened Entitlement
  import opened LedgerTransactions
  import opened Ledger
  import opened EarningTable
  import opened Payments
  import opened PaymentsBooks
  import opened PaymentsInvariant
  import opened PaymentsTheorems
  import opened CampaignMoney
  import opened CallEffects
  import Settlement

  /** Every funding is in its campaign's currency. */
  predicate OneCurrency(db: Db)
  {
    forall i :: 0 <= i < |db.fundings| ==>
      && db.fundings[i].campaign < |db.campaigns|
      && db.fundings[i].currency == db.campaigns[db.fundings[i].campaign].currency
  }

  // Sums grouped by a number.

  function SumUpTo(n: nat, of: nat -> int): int
  {
    if n == 0 then 0 else SumUpTo(n - 1, of) + of(n - 1)
  }

  lemma {:induction false} SumUpToSame(n: nat, first: nat -> int, second: nat -> int)
    requires forall g: nat :: g < n ==> first(g) == second(g)
    ensures SumUpTo(n, first) == SumUpTo(n, second)
  {
    if n > 0 {
      SumUpToSame(n - 1, first, second);
    }
  }

  lemma {:induction false} SumUpToPlus(n: nat, whole: nat -> int, first: nat -> int, second: nat -> int)
    requires forall g: nat :: g < n ==> whole(g) == first(g) + second(g)
    ensures SumUpTo(n, whole) == SumUpTo(n, first) + SumUpTo(n, second)
  {
    if n > 0 {
      SumUpToPlus(n - 1, whole, first, second);
    }
  }

  /** Only one number has a share. */
  lemma {:induction false} SumUpToSpike(n: nat, of: nat -> int, at: nat, height: int)
    requires forall g: nat :: g < n ==> of(g) == if g == at then height else 0
    ensures SumUpTo(n, of) == if at < n then height else 0
  {
    if n > 0 {
      SumUpToSpike(n - 1, of, at, height);
    }
  }

  lemma {:induction false} SumUpToNonNegative(n: nat, of: nat -> int)
    requires forall g: nat :: g < n ==> 0 <= of(g)
    ensures 0 <= SumUpTo(n, of)
  {
    if n > 0 {
      SumUpToNonNegative(n - 1, of);
    }
  }

  function GroupSum<T>(rows: seq<T>, group: T -> nat, weight: T -> int): nat -> int
  {
    (g: nat) => Sum(rows, InGroup(group, g, weight))
  }

  /** Adding up rows is adding up their groups. */
  lemma {:induction false} SumByGroup<T>(rows: seq<T>, n: nat, group: T -> nat, weight: T -> int)
    requires forall i :: 0 <= i < |rows| ==> group(rows[i]) < n
    ensures Sum(rows, weight) == SumUpTo(n, GroupSum(rows, group, weight))
  {
    if rows == [] {
      SumUpToSpike(n, GroupSum(rows, group, weight), 0, 0);
    } else {
      var last := |rows| - 1;
      var spike := (g: nat) => InGroup(group, g, weight)(rows[last]);
      SumByGroup(rows[..last], n, group, weight);
      SumUpToPlus(n, GroupSum(rows, group, weight), GroupSum(rows[..last], group, weight), spike);
      SumUpToSpike(n, spike, group(rows[last]), weight(rows[last]));
    }
  }

  ghost function SetGroupSum<T(!new)>(keys: set<T>, group: T -> nat, weight: T -> int): nat -> int
  {
    (g: nat) => SetSum(keys, InGroup(group, g, weight))
  }

  lemma {:induction false} SetSumByGroup<T(!new)>(keys: set<T>, n: nat, group: T -> nat, weight: T -> int)
    requires forall key :: key in keys ==> group(key) < n
    ensures SetSum(keys, weight) == SumUpTo(n, SetGroupSum(keys, group, weight))
    decreases |keys|
  {
    if keys == {} {
      SumUpToSpike(n, SetGroupSum(keys, group, weight), 0, 0);
    } else {
      var key :| key in keys;
      var spike := (g: nat) => InGroup(group, g, weight)(key);
      SetSumRemove(keys, key, weight);
      SetSumByGroup(keys - {key}, n, group, weight);
      forall g: nat ensures SetGroupSum(keys, group, weight)(g)
          == SetGroupSum(keys - {key}, group, weight)(g) + spike(g) {
        SetSumRemove(keys, key, InGroup(group, g, weight));
      }
      SumUpToPlus(n, SetGroupSum(keys, group, weight), SetGroupSum(keys - {key}, group, weight), spike);
      SumUpToSpike(n, spike, group(key), weight(key));
    }
  }

  // The brand's campaigns.

  predicate IsOf(db: Db, c: nat, organization: nat, currency: string)
  {
    c < |db.campaigns| && db.campaigns[c].organization == organization && db.campaigns[c].currency == currency
  }

  function FundedFor(db: Db, organization: nat, currency: string): nat -> int
  {
    (c: nat) => if IsOf(db, c, organization, currency) then FundedMinor(db, c) else 0
  }

  function RefundedFor(db: Db, organization: nat, currency: string): nat -> int
  {
    (c: nat) => if IsOf(db, c, organization, currency) then RefundedMinor(db, c) else 0
  }

  ghost function AccruedFor(db: Db, organization: nat, currency: string): nat -> int
  {
    (c: nat) => if IsOf(db, c, organization, currency) then AccruedMinor(db, c) else 0
  }

  /** What a campaign of this brand and currency still holds. */
  ghost function HeldFor(db: Db, organization: nat, currency: string): nat -> int
  {
    (c: nat) =>
      if IsOf(db, c, organization, currency) then FundedMinor(db, c) - RefundedMinor(db, c) - AccruedMinor(db, c) else 0
  }

  lemma FundingsByCampaign(db: Db, organization: nat, currency: string)
    requires FundingsOk(db) && OneCurrency(db)
    ensures Sum(db.fundings, PaidIn(organization, currency))
            == SumUpTo(|db.campaigns|, FundedFor(db, organization, currency))
  {
    var group := (row: Funding) => row.campaign;
    SumByGroup(db.fundings, |db.campaigns|, group, PaidIn(organization, currency));
    forall c: nat | c < |db.campaigns|
      ensures GroupSum(db.fundings, group, PaidIn(organization, currency))(c)
          == FundedFor(db, organization, currency)(c)
    {
      forall i | 0 <= i < |db.fundings|
        ensures InGroup(group, c, PaidIn(organization, currency))(db.fundings[i])
                == if IsOf(db, c, organization, currency) then FundingOf(c)(db.fundings[i]) else 0
      {
        assert FundingOk(db.campaigns, db.fundings[i]);
      }
      if IsOf(db, c, organization, currency) {
        SumSame(db.fundings, InGroup(group, c, PaidIn(organization, currency)), FundingOf(c));
      } else {
        SumZero(db.fundings, InGroup(group, c, PaidIn(organization, currency)));
      }
    }
    SumUpToSame(|db.campaigns|, GroupSum(db.fundings, group, PaidIn(organization, currency)),
                FundedFor(db, organization, currency));
  }

  lemma RefundsByCampaign(db: Db, organization: nat, currency: string)
    requires FundingsOk(db) && RefundsOk(db) && OneCurrency(db)
    ensures Sum(db.refunds, GivenBack(organization, currency))
            == SumUpTo(|db.campaigns|, RefundedFor(db, organization, currency))
  {
    var group := (row: Refund) => row.campaign;
    forall i | 0 <= i < |db.refunds|
      ensures group(db.refunds[i]) < |db.campaigns|
      ensures db.refunds[i].organization == db.campaigns[db.refunds[i].campaign].organization
      ensures db.refunds[i].currency == db.campaigns[db.refunds[i].campaign].currency
      ensures db.refunds[i].status != Pending
    {
      assert RefundOk(db.fundings, db.refunds[i]);
      assert FundingOk(db.campaigns, db.fundings[db.refunds[i].funding]);
    }
    SumByGroup(db.refunds, |db.campaigns|, group, GivenBack(organization, currency));
    forall c: nat | c < |db.campaigns|
      ensures GroupSum(db.refunds, group, GivenBack(organization, currency))(c)
          == RefundedFor(db, organization, currency)(c)
    {
      if IsOf(db, c, organization, currency) {
        SumSame(db.refunds, InGroup(group, c, GivenBack(organization, currency)), RefundOf(c));
      } else {
        SumZero(db.refunds, InGroup(group, c, GivenBack(organization, currency)));
      }
    }
    SumUpToSame(|db.campaigns|, GroupSum(db.refunds, group, GivenBack(organization, currency)),
                RefundedFor(db, organization, currency));
  }

  lemma EarningsByCampaign(db: Db, organization: nat, currency: string)
    requires EarningsOk(db)
    ensures SumAccrued(db.earnings, OfBrand(db.campaigns, organization, currency))
            == SumUpTo(|db.campaigns|, AccruedFor(db, organization, currency))
  {
    var group := (key: EarningKey) => key.campaign;
    var weight := Contribution(db.earnings, OfBrand(db.campaigns, organization, currency));
    forall key | key in db.earnings
      ensures key.campaign < |db.campaigns| && db.earnings[key].currency == db.campaigns[key.campaign].currency
    {
      assert EarningOk(db.campaigns, key, db.earnings[key]);
    }
    SetSumByGroup(db.earnings.Keys, |db.campaigns|, group, weight);
    forall c: nat | c < |db.campaigns|
      ensures SetGroupSum(db.earnings.Keys, group, weight)(c) == AccruedFor(db, organization, currency)(c)
    {
      if IsOf(db, c, organization, currency) {
        SetSumSame(db.earnings.Keys, InGroup(group, c, weight), Contribution(db.earnings, OfCampaign(c)));
      } else {
        SetSumZero(db.earnings.Keys, InGroup(group, c, weight));
      }
    }
    SumUpToSame(|db.campaigns|, SetGroupSum(db.earnings.Keys, group, weight), AccruedFor(db, organization, currency));
  }

  ghost function PaidOutFor(db: Db, organization: nat, currency: string): nat -> int
  {
    (c: nat) => if IsOf(db, c, organization, currency) then RefundedMinor(db, c) + AccruedMinor(db, c) else 0
  }

  lemma HeldIsWhatIsLeft(db: Db, organization: nat, currency: string)
    ensures SumUpTo(|db.campaigns|, HeldFor(db, organization, currency))
            == SumUpTo(|db.campaigns|, FundedFor(db, organization, currency))
               - SumUpTo(|db.campaigns|, RefundedFor(db, organization, currency))
               - SumUpTo(|db.campaigns|, AccruedFor(db, organization, currency))
  {
    SumUpToPlus(|db.campaigns|, FundedFor(db, organization, currency), HeldFor(db, organization, currency),
                PaidOutFor(db, organization, currency));
    SumUpToPlus(|db.campaigns|, PaidOutFor(db, organization, currency), RefundedFor(db, organization, currency),
                AccruedFor(db, organization, currency));
  }

  lemma HeldIsNeverNegative(db: Db, organization: nat, currency: string)
    requires Inv(db)
    ensures 0 <= SumUpTo(|db.campaigns|, HeldFor(db, organization, currency))
  {
    forall c: nat | c < |db.campaigns| ensures 0 <= HeldFor(db, organization, currency)(c) {
      assert Limits(db, c);
    }
    SumUpToNonNegative(|db.campaigns|, HeldFor(db, organization, currency));
  }

  /**
    The brand's ledger balance is what its campaigns hold together, less the lines that were lost, and no
    campaign holds less than nothing.
   */
  lemma BrandBalanceIsItsCampaigns(db: Db, organization: nat, currency: string)
    requires Reachable(db) && OneCurrency(db)
    ensures Balance(db.journal, Committed(organization, currency))
            == SumUpTo(|db.campaigns|, HeldFor(db, organization, currency))
               - Balance(db.unposted, Committed(organization, currency))
    ensures 0 <= SumUpTo(|db.campaigns|, HeldFor(db, organization, currency))
  {
    ReachableKeeps(db);
    BrandSides(db, organization, currency);
    FundingsByCampaign(db, organization, currency);
    RefundsByCampaign(db, organization, currency);
    EarningsByCampaign(db, organization, currency);
    HeldIsWhatIsLeft(db, organization, currency);
    HeldIsNeverNegative(db, organization, currency);
  }

  // When fundings stay in their campaign's currency.

  /** The call gives a funded campaign another currency. */
  predicate Redenominates(db: Db, call: Call)
  {
    && call.UpdateCampaign? && call.patch.currency.Some?
    && call.campaign < |db.campaigns| && db.campaigns[call.campaign].status == Draft && PatchValid(call.patch)
    && call.patch.currency.value != db.campaigns[call.campaign].currency
    && exists i :: 0 <= i < |db.fundings| && db.fundings[i].campaign == call.campaign
  }

  lemma RedenominatingBreaksIt(db: Db, call: Call)
    requires OneCurrency(db) && Redenominates(db, call)
    ensures !OneCurrency(Step(db, call).db)
  {
    var i :| 0 <= i < |db.fundings| && db.fundings[i].campaign == call.campaign;
    var after := UpdateStep(db, call.campaign, call.patch).db;
    assert after.fundings[i].currency != after.campaigns[after.fundings[i].campaign].currency;
  }

  /** Campaigns keep their currency and fundings their own. */
  predicate CurrenciesStay(db: Db, after: Db)
  {
    && |db.campaigns| <= |after.campaigns| && |after.fundings| == |db.fundings|
    && (forall c :: 0 <= c < |db.campaigns| ==> after.campaigns[c].currency == db.campaigns[c].currency)
    && (forall i :: 0 <= i < |db.fundings| ==>
          && after.fundings[i].campaign == db.fundings[i].campaign
          && after.fundings[i].currency == db.fundings[i].currency)
  }

  lemma RefundKeepsCurrencies(db: Db, c: nat, gateway: nat -> GatewayOutcome)
    ensures CurrenciesStay(db, RefundStep(db, c, gateway).db)
  {
    if c < |db.campaigns| {
      RefundDownEffect(RefundRun(db, c, gateway), db, c, |db.fundings|, RefundableMinor(db, c), 0, 0,
                       db.campaigns[c].currency == WALLET_CURRENCY, gateway);
    }
  }

  lemma CloseKeepsCurrencies(db: Db, c: nat, readings: Readings, gateway: nat -> GatewayOutcome)
    ensures CurrenciesStay(db, CloseStep(db, c, readings, gateway).db)
  {
    if c < |db.campaigns| && db.campaigns[c].status == Published {
      RefundKeepsCurrencies(SettleStep(AsClosed(db, c), c, readings).db, c, gateway);
    }
  }

  lemma CreateFundingKeepsOneCurrency(
    db: Db, c: nat, amount: int, feeBps: Bps, id: nat, bypass: bool, throws: bool)
    requires OneCurrency(db)
    ensures OneCurrency(CreateFundingStep(db, c, amount, feeBps, id, bypass, throws).db)
  {
  }

  lemma WalletFundingKeepsOneCurrency(db: Db, c: nat, amount: int, feeBps: Bps, id: nat, throws: bool)
    requires OneCurrency(db)
    ensures OneCurrency(FundFromWalletStep(db, c, amount, feeBps, id, throws).db)
  {
  }

  lemma UpdateKeepsOneCurrency(db: Db, c: nat, patch: Patch)
    requires OneCurrency(db) && !Redenominates(db, UpdateCampaign(c, patch))
    ensures OneCurrency(UpdateStep(db, c, patch).db)
  {
  }

  lemma CampaignCallsKeepCurrencies(db: Db, call: Call)
    requires call.CreateCampaign? || call.Publish? || call.Close? || call.Settle? || call.RefundUnspent?
    ensures CurrenciesStay(db, Step(db, call).db)
  {
    match call
    case Close(c, readings, gateway) => CloseKeepsCurrencies(db, c, readings, gateway);
    case RefundUnspent(c, gateway) => RefundKeepsCurrencies(db, c, gateway);
    case _ =>
  }

  lemma WithdrawalCallsKeepCurrencies(db: Db, call: Call)
    requires call.RequestWithdrawal? || call.HoldWithdrawal? || call.ReleaseWithdrawal? || call.RejectWithdrawal?
             || call.ApproveWithdrawal?
    ensures Step(db, call).db.campaigns == db.campaigns && Step(db, call).db.fundings == db.fundings
  {
  }

  lemma WebhookKeepsCurrencies(db: Db, reference: PaymentReference, succeeded: bool, throws: bool)
    ensures CurrenciesStay(db, WebhookStep(db, reference, succeeded, throws).db)
  {
    var funded := MarkFunding(db, reference, succeeded, throws);
    assert CurrenciesStay(db, funded);
    var after := MarkTopUp(funded, reference, succeeded, throws);
    assert after.campaigns == funded.campaigns && after.fundings == funded.fundings;
  }

  lemma TopUpKeepsCurrencies(db: Db, organization: nat, amount: int, id: nat, bypass: bool, throws: bool)
    ensures CurrenciesStay(db, CreateTopUpStep(db, organization, amount, id, bypass, throws).db)
  {
  }

  lemma OtherCallsKeepCurrencies(db: Db, call: Call)
    requires call.CreateTopUp? || call.Webhook? || call.RequestWithdrawal? || call.HoldWithdrawal?
             || call.ReleaseWithdrawal? || call.RejectWithdrawal? || call.ApproveWithdrawal?
    ensures CurrenciesStay(db, Step(db, call).db)
  {
    match call
    case CreateTopUp(organization, amount, id, bypass, throws) =>
      TopUpKeepsCurrencies(db, organization, amount, id, bypass, throws);
    case Webhook(reference, succeeded, throws) => WebhookKeepsCurrencies(db, reference, succeeded, throws);
    case _ => WithdrawalCallsKeepCurrencies(db, call);
  }

  /**
    Fundings stay in their campaign's currency exactly until a funded draft is given another currency,
    which the service allows; that draft's money stays booked under the old one.
   */
  lemma OneCurrencyUnlessRedenominated(db: Db, call: Call)
    requires OneCurrency(db)
    ensures OneCurrency(Step(db, call).db) <==> !Redenominates(db, call)
  {
    if Redenominates(db, call) {
      RedenominatingBreaksIt(db, call);
    } else {
      match call
      case UpdateCampaign(c, patch) => UpdateKeepsOneCurrency(db, c, patch);
      case CreateFunding(c, amount, feeBps, id, bypass, throws) =>
        CreateFundingKeepsOneCurrency(db, c, amount, feeBps, id, bypass, throws);
      case FundFromWallet(c, amount, feeBps, id, throws) =>
        WalletFundingKeepsOneCurrency(db, c, amount, feeBps, id, throws);
      case _ =>
        if call.CreateCampaign? || call.Publish? || call.Close? || call.Settle? || call.RefundUnspent? {
          CampaignCallsKeepCurrencies(db, call);
        } else {
          OtherCallsKeepCurrencies(db, call);
        }
    }
  }

  /** The call made after the first `i`. */
  ghost predicate RedenominatesAt(calls: seq<Call>, i: nat)
    requires i < |calls|
  {
    Redenominates(Run(calls[..i]), calls[i])
  }

  /** Over any run: as long as no call redenominates a funded draft, fundings are in their campaign's currency. */
  lemma {:induction false} OneCurrencyOverRun(calls: seq<Call>)
    requires forall i :: 0 <= i < |calls| ==> !RedenominatesAt(calls, i)
    ensures OneCurrency(Run(calls))
  {
    if calls != [] {
      var n := |calls| - 1;
      forall i | 0 <= i < n ensures !RedenominatesAt(calls[..n], i) {
        assert calls[..n][..i] == calls[..i];
        assert !RedenominatesAt(calls, i);
      }
      OneCurrencyOverRun(calls[..n]);
      assert !RedenominatesAt(calls, n);
      OneCurrencyUnlessRedenominated(Run(calls[..n]), calls[n]);
    }
  }

  /** Then the balance in the new currency misses exactly the money the draft holds. */
  lemma RedenominatingMisplacesTheMoney(db: Db, c: nat, patch: Patch)
    requires Reachable(db) && OneCurrency(db) && Redenominates(db, UpdateCampaign(c, patch))
    ensures
      var after := Step(db, UpdateCampaign(c, patch)).db;
      var organization, currency := db.campaigns[c].organization, patch.currency.value;
      SumUpTo(|after.campaigns|, HeldFor(after, organization, currency))
      == BookedBalance(after, Committed(organization, currency)) + TotalSucceededMinor(db, c)
  {
    var after := UpdateStep(db, c, patch).db;
    var organization, currency := db.campaigns[c].organization, patch.currency.value;
    var moved := (other: nat) => if other == c then TotalSucceededMinor(db, c) else 0;
    BrandBalanceIsItsCampaigns(db, organization, currency);
    DraftHasNotAccrued(db, c);
    forall other: nat | other < |db.campaigns|
      ensures HeldFor(after, organization, currency)(other) == HeldFor(db, organization, currency)(other) + moved(other)
    {
      assert other != c ==> IsOf(after, other, organization, currency) == IsOf(db, other, organization, currency);
    }
    SumUpToPlus(|db.campaigns|, HeldFor(after, organization, currency), HeldFor(db, organization, currency), moved);
    SumUpToSpike(|db.campaigns|, moved, c, TotalSucceededMinor(db, c));
  }

  lemma DraftHasNotAccrued(db: Db, c: nat)
    requires Reachable(db) && c < |db.campaigns| && db.campaigns[c].status == Draft
    ensures AccruedMinor(db, c) == 0
  {
    ReachableKeeps(db);
    assert Limits(db, c);
  }

  /** Such a draft exists: 100 paid in dollars, about to be given euros. */
  lemma FundedDraftCanBeRedenominated() returns (db: Db)
    ensures Reachable(db) && OneCurrency(db) && TotalSucceededMinor(db, 0) == 100
    ensures Redenominates(db, UpdateCampaign(0, Patch(Some("EUR"), None, None, None, None)))
  {
    db := FundedDraft(Terms(PerView, 1, None));
  }
}
