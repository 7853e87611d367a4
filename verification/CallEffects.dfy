/**
  When single calls succeed and what they move, told by the tables rather than by the balances the calls
  themselves read.
 */
module CallEffects {
  import opened Outcomes
  import opened Sums
  import opened Money
  import opened Entitlement
  import opened LedgerTransactions
  import opened Ledger
  import opened EarningTable
  import opened Payments
  import opened PaymentsBooks
  import opened PaymentsInvariant
  import opened PaymentsTheorems
  import Settlement

  // The wallet.

  /** Top-ups and returns, less what campaigns were paid with their fees. */
  function WalletHolds(db: Db, organization: nat): int
  {
    Sum(db.topUps, ToppedUp(organization, WALLET_CURRENCY))
    + Sum(db.refunds, GivenBackToWallet(organization, WALLET_CURRENCY))
    - Sum(db.fundings, PaidFromWallet(organization, WALLET_CURRENCY))
  }

  /**
    A wallet pays for a campaign exactly when it covers the budget and the fee, and is left with the rest. What
    the wallet holds in the ledger is what its rows say less the lines that were lost.
   */
  lemma WalletPaysExactlyWhatItHolds(db: Db, c: nat, amount: nat, feeBps: Bps, id: nat)
    requires Reachable(db) && c < |db.campaigns| && db.campaigns[c].currency == WALLET_CURRENCY && 0 < amount
    requires forall i :: 0 <= i < |db.fundings| ==> db.fundings[i].reference != FromWallet(id)
    ensures
      var response := Step(db, FundFromWallet(c, amount, feeBps, id, false));
      var organization, spent := db.campaigns[c].organization, amount + FeeMinor(amount, feeBps);
      && (response.outcome == Done <==>
            spent <= WalletHolds(db, organization) - Balance(db.unposted, Wallet(organization, WALLET_CURRENCY)))
      && (response.outcome == Done ==>
            && WalletHolds(response.db, organization) == WalletHolds(db, organization) - spent
            && TotalSucceededMinor(response.db, c) == TotalSucceededMinor(db, c) + amount)
  {
    var organization := db.campaigns[c].organization;
    FeeWithinBudget(amount, feeBps);
    WalletLedgerAgrees(db, organization, WALLET_CURRENCY);
    var row := Funding(c, organization, amount, FeeMinor(amount, feeBps), WALLET_CURRENCY, Succeeded, FromWallet(id));
    SumAppend(db.fundings, row, PaidFromWallet(organization, WALLET_CURRENCY));
    SumAppend(db.fundings, row, FundingOf(c));
  }

  predicate TopUpsWithinLimits(topUps: seq<TopUp>)
  {
    forall t :: 0 <= t < |topUps| ==>
      MIN_TOP_UP_MINOR <= topUps[t].amount <= MAX_TOP_UP_MINOR && topUps[t].currency == WALLET_CURRENCY
  }

  lemma RefundKeepsTopUps(db: Db, c: nat, gateway: nat -> GatewayOutcome)
    ensures RefundStep(db, c, gateway).db.topUps == db.topUps
  {
    if c < |db.campaigns| {
      RefundDownEffect(RefundRun(db, c, gateway), db, c, |db.fundings|, RefundableMinor(db, c), 0, 0,
                       db.campaigns[c].currency == WALLET_CURRENCY, gateway);
    }
  }

  lemma MarkTopUpKeepsLimits(db: Db, reference: PaymentReference, succeeded: bool, throws: bool)
    requires TopUpsWithinLimits(db.topUps)
    ensures TopUpsWithinLimits(MarkTopUp(db, reference, succeeded, throws).topUps)
  {
  }

  lemma CreateTopUpKeepsLimits(db: Db, organization: nat, amount: int, id: nat, bypass: bool, throws: bool)
    requires TopUpsWithinLimits(db.topUps)
    ensures TopUpsWithinLimits(CreateTopUpStep(db, organization, amount, id, bypass, throws).db.topUps)
  {
    if MIN_TOP_UP_MINOR <= amount <= MAX_TOP_UP_MINOR {
      var reference := if bypass then Bypass(id) else Checkout(id);
      var created := db.(topUps := db.topUps + [TopUp(organization, amount, WALLET_CURRENCY, Pending, reference)]);
      MarkTopUpKeepsLimits(created, reference, true, throws);
    }
  }

  lemma OtherCallsKeepTopUps(db: Db, call: Call)
    requires !call.CreateTopUp? && !call.Webhook?
    ensures Step(db, call).db.topUps == db.topUps
  {
    match call
    case Close(c, readings, gateway) =>
      if c < |db.campaigns| {
        RefundKeepsTopUps(SettleStep(SetCampaign(db, c, db.campaigns[c].(status := Closed)), c, readings).db, c,
                          gateway);
      }
    case RefundUnspent(c, gateway) => RefundKeepsTopUps(db, c, gateway);
    case _ =>
  }

  lemma StepKeepsTopUps(db: Db, call: Call)
    requires TopUpsWithinLimits(db.topUps)
    ensures TopUpsWithinLimits(Step(db, call).db.topUps)
  {
    match call
    case CreateTopUp(organization, amount, id, bypass, throws) =>
      CreateTopUpKeepsLimits(db, organization, amount, id, bypass, throws);
    case Webhook(reference, succeeded, throws) =>
      MarkTopUpKeepsLimits(MarkFunding(db, reference, succeeded, throws), reference, succeeded, throws);
    case _ => OtherCallsKeepTopUps(db, call);
  }

  /** No top-up outside the limits is ever stored. */
  lemma {:induction false} TopUpsOfRun(calls: seq<Call>)
    ensures TopUpsWithinLimits(Run(calls).topUps)
  {
    if calls != [] {
      TopUpsOfRun(calls[..|calls| - 1]);
      StepKeepsTopUps(Run(calls[..|calls| - 1]), calls[|calls| - 1]);
    }
  }

  // Campaign terms.

  predicate PositiveAmounts(campaigns: seq<Campaign>)
  {
    forall c :: 0 <= c < |campaigns| ==>
      && 0 < campaigns[c].budget && 0 < campaigns[c].terms.reward
      && (campaigns[c].terms.cap.Some? ==> 0 < campaigns[c].terms.cap.value)
  }

  lemma RefundKeepsCampaigns(db: Db, c: nat, gateway: nat -> GatewayOutcome)
    ensures RefundStep(db, c, gateway).db.campaigns == db.campaigns
  {
    if c < |db.campaigns| {
      RefundDownEffect(RefundRun(db, c, gateway), db, c, |db.fundings|, RefundableMinor(db, c), 0, 0,
                       db.campaigns[c].currency == WALLET_CURRENCY, gateway);
    }
  }

  lemma MoneyCallsKeepCampaigns(db: Db, call: Call)
    requires !call.CreateCampaign? && !call.UpdateCampaign? && !call.Publish? && !call.Close?
    ensures Step(db, call).db.campaigns == db.campaigns
  {
    match call
    case RefundUnspent(c, gateway) => RefundKeepsCampaigns(db, c, gateway);
    case _ =>
  }

  lemma UpdateKeepsPositive(db: Db, c: nat, patch: Patch)
    requires PositiveAmounts(db.campaigns)
    ensures PositiveAmounts(UpdateStep(db, c, patch).db.campaigns)
  {
    if PatchValid(patch) && c < |db.campaigns| {
      var updated := Patched(db.campaigns[c], patch);
      assert 0 < updated.budget && 0 < updated.terms.reward;
      assert updated.terms.cap.Some? ==> 0 < updated.terms.cap.value;
    }
  }

  lemma CloseKeepsPositive(db: Db, c: nat, readings: Readings, gateway: nat -> GatewayOutcome)
    requires PositiveAmounts(db.campaigns)
    ensures PositiveAmounts(CloseStep(db, c, readings, gateway).db.campaigns)
  {
    if c < |db.campaigns| {
      var closed := SetCampaign(db, c, db.campaigns[c].(status := Closed));
      assert PositiveAmounts(closed.campaigns);
      RefundKeepsCampaigns(SettleStep(closed, c, readings).db, c, gateway);
    }
  }

  lemma CampaignCallsKeepPositive(db: Db, call: Call)
    requires PositiveAmounts(db.campaigns)
    requires call.CreateCampaign? || call.UpdateCampaign? || call.Publish? || call.Close?
    ensures PositiveAmounts(Step(db, call).db.campaigns)
  {
    match call
    case UpdateCampaign(c, patch) => UpdateKeepsPositive(db, c, patch);
    case Close(c, readings, gateway) => CloseKeepsPositive(db, c, readings, gateway);
    case _ =>
  }

  /** No campaign is ever stored with a budget, reward or cap of zero. */
  lemma {:induction false} AmountsOfRun(calls: seq<Call>)
    ensures PositiveAmounts(Run(calls).campaigns)
  {
    if calls != [] {
      var before, last := Run(calls[..|calls| - 1]), calls[|calls| - 1];
      AmountsOfRun(calls[..|calls| - 1]);
      if last.CreateCampaign? || last.UpdateCampaign? || last.Publish? || last.Close? {
        CampaignCallsKeepPositive(before, last);
      } else {
        MoneyCallsKeepCampaigns(before, last);
      }
    }
  }

  /** A new campaign's cap fits its budget; an update is not checked for it. */
  lemma CapFitsUntilUpdated(db: Db, c: nat, patch: Patch)
    requires c < |db.campaigns| && db.campaigns[c].status == Draft && PatchValid(patch)
    requires TermsValid(db.campaigns[c].budget, db.campaigns[c].terms)
    ensures
      var response := Step(db, UpdateCampaign(c, patch));
      var cap := if patch.cap.Some? then patch.cap else db.campaigns[c].terms.cap;
      && response.outcome == Done && c < |response.db.campaigns|
      && (TermsValid(response.db.campaigns[c].budget, response.db.campaigns[c].terms)
          <==> cap.None? || cap.value <= Or(patch.budget, db.campaigns[c].budget))
  {
  }

  /** Halving a budget of 100 leaves a cap of 100 above it. */
  lemma UpdateCanLeaveCapAboveBudget()
    ensures
      var create := Step(EmptyDb, CreateCampaign(0, "USD", 100, Terms(PerView, 1, Some(100))));
      var update := Step(create.db, UpdateCampaign(0, Patch(None, Some(50), None, None, None)));
      && create.outcome == Done && update.outcome == Done && |update.db.campaigns| == 1
      && update.db.campaigns[0].budget < update.db.campaigns[0].terms.cap.value
  {
  }

  // A funded draft to start from.

  /** With the gateway bypassed, a funding is created and marked succeeded in one call. */
  lemma BypassSettlesAtOnce(db: Db, c: nat, amount: nat, feeBps: Bps, id: nat)
    requires 0 < amount && c < |db.campaigns| && FindFunding(db.fundings, Bypass(id)).None?
    ensures 0 <= FeeMinor(amount, feeBps)
    ensures
      var after := CreateFundingStep(db, c, amount, feeBps, id, true, false).db;
      var row := Funding(c, db.campaigns[c].organization, amount, FeeMinor(amount, feeBps), db.campaigns[c].currency,
                         Succeeded, Bypass(id));
      && after.fundings == db.fundings + [row]
      && after.campaigns == db.campaigns && after.refunds == db.refunds && after.earnings == db.earnings
      && after.withdrawals == db.withdrawals && after.unposted == db.unposted && after.sent == db.sent
  {
    FeeWithinBudget(amount, feeBps);
  }

  lemma NoFeeOnNothing(amount: nat)
    ensures FeeMinor(amount, 0) == 0
  {
  }

  /** A draft of 100 dollars on any terms, paid in full. */
  lemma FundedDraft(terms: Terms) returns (db: Db)
    requires TermsValid(100, terms)
    ensures Reachable(db) && db.campaigns == [Campaign(7, "USD", 100, terms, Draft)]
    ensures db.refunds == [] && db.earnings == map[]
    ensures db.fundings == [Funding(0, 7, 100, 0, "USD", Succeeded, Bypass(1))]
    ensures db.withdrawals == [] && db.unposted == [] && db.sent == []
    ensures TotalSucceededMinor(db, 0) == 100
  {
    var create, pay := CreateCampaign(7, "USD", 100, terms), CreateFunding(0, 100, 0, 1, true, false);
    var drafted := EmptyDb.(campaigns := [Campaign(7, "USD", 100, terms, Draft)]);
    assert EmptyDb == Run([]);
    ReachableStep(EmptyDb, create);
    assert Step(EmptyDb, create).db == drafted;
    ReachableStep(drafted, pay);
    BypassSettlesAtOnce(drafted, 0, 100, 0, 1);
    db := Step(drafted, pay).db;
    NoFeeOnNothing(100);
    SumAppend([], db.fundings[0], FundingOf(0));
    assert db.fundings == [] + [db.fundings[0]];
  }

  // Payment events.

  function Verdict(succeeded: bool): PaymentStatus
  {
    if succeeded then Succeeded else Failed
  }

  lemma FundingDecided(db: Db, reference: PaymentReference, succeeded: bool, throws: bool, after: Db)
    requires DistinctFundings(db.fundings) && after == MarkFunding(db, reference, succeeded, throws)
    ensures |after.fundings| == |db.fundings| && after.topUps == db.topUps
    ensures forall i :: 0 <= i < |db.fundings| ==>
              after.fundings[i] == if db.fundings[i].reference == reference && db.fundings[i].status == Pending
                                   then db.fundings[i].(status := Verdict(succeeded)) else db.fundings[i]
  {
  }

  lemma TopUpDecided(db: Db, reference: PaymentReference, succeeded: bool, throws: bool, after: Db)
    requires DistinctTopUps(db.topUps) && after == MarkTopUp(db, reference, succeeded, throws)
    ensures |after.topUps| == |db.topUps| && after.fundings == db.fundings
    ensures forall t :: 0 <= t < |db.topUps| ==>
              after.topUps[t] == if db.topUps[t].reference == reference && db.topUps[t].status == Pending
                                 then db.topUps[t].(status := Verdict(succeeded)) else db.topUps[t]
  {
  }

  predicate AwaitsFunding(db: Db, reference: PaymentReference)
  {
    exists i :: 0 <= i < |db.fundings| && db.fundings[i].reference == reference && db.fundings[i].status == Pending
  }

  /**
    An event decides the pending payment it refers to, as it says, and no payment that is decided or another's.
    The funding's posting, if it throws, keeps the event from the top-ups.
   */
  lemma WebhookDecidesItsOwn(db: Db, reference: PaymentReference, succeeded: bool, throws: bool, after: Db)
    requires Reachable(db) && after == Step(db, Webhook(reference, succeeded, throws)).db
    ensures |after.fundings| == |db.fundings| && |after.topUps| == |db.topUps|
    ensures forall i :: 0 <= i < |db.fundings| ==>
              after.fundings[i] == if db.fundings[i].reference == reference && db.fundings[i].status == Pending
                                   then db.fundings[i].(status := Verdict(succeeded)) else db.fundings[i]
    ensures forall t :: 0 <= t < |db.topUps| ==>
              after.topUps[t] == if db.topUps[t].reference == reference && db.topUps[t].status == Pending
                                    && !(succeeded && throws && AwaitsFunding(db, reference))
                                 then db.topUps[t].(status := Verdict(succeeded)) else db.topUps[t]
  {
    assert DistinctFundings(db.fundings) && DistinctTopUps(db.topUps) by {
      ReachableKeeps(db);
    }
    var marked := MarkFunding(db, reference, succeeded, throws);
    FundingDecided(db, reference, succeeded, throws, marked);
    TopUpDecided(marked, reference, succeeded, throws, MarkTopUp(marked, reference, succeeded, throws));
    MarkingShows(db, reference, throws);
  }

  /** Marking a funding succeeded changes something exactly when one was waiting. */
  lemma MarkingShows(db: Db, reference: PaymentReference, throws: bool)
    requires DistinctFundings(db.fundings)
    ensures MarkFunding(db, reference, true, throws) != db <==> AwaitsFunding(db, reference)
  {
    var found := FindFunding(db.fundings, reference);
    if found.Some? && db.fundings[found.value].status == Pending {
      assert MarkFunding(db, reference, true, throws).fundings[found.value] != db.fundings[found.value];
    }
  }

  // Withdrawals.

  /** What a creator has earned and neither withdrawn nor asked for. */
  ghost function Unclaimed(db: Db, creator: nat, currency: string): int
  {
    SumAccrued(db.earnings, OfCreator(creator, currency))
    - Sum(db.withdrawals, PaidTo(creator, currency))
    - Sum(db.withdrawals, OpenOf(creator, currency))
  }

  lemma AvailableIsUnclaimed(db: Db, creator: nat, currency: string)
    requires Reachable(db)
    ensures AvailableMinor(db, creator, currency) == Unclaimed(db, creator, currency)
  {
    CreatorLedgerAgrees(db, creator, currency);
  }

  /** A withdrawal is granted exactly when it is covered, and takes exactly its amount out of reach. */
  lemma WithdrawalGrantedExactly(db: Db, creator: nat, amount: nat, currency: Currency, destination: Option<nat>)
    requires Reachable(db) && 0 < amount
    ensures
      var response := Step(db, RequestWithdrawal(creator, amount, currency, destination));
      && (response.outcome == Done <==> amount <= Unclaimed(db, creator, currency))
      && (response.outcome == Done ==>
            Unclaimed(response.db, creator, currency) == Unclaimed(db, creator, currency) - amount)
  {
    AvailableIsUnclaimed(db, creator, currency);
    var row := WithdrawalRow(creator, amount, currency, Requested, destination);
    SumAppend(db.withdrawals, row, PaidTo(creator, currency));
    SumAppend(db.withdrawals, row, OpenOf(creator, currency));
  }

  lemma StatusMoves(db: Db, after: Db, w: nat, status: WithdrawalStatus, creator: nat, currency: string)
    requires w < |db.withdrawals| && IsOpen(db.withdrawals[w])
    requires after.earnings == db.earnings
    requires after.withdrawals == db.withdrawals[w := db.withdrawals[w].(status := status)]
    ensures
      var row := db.withdrawals[w];
      Unclaimed(after, creator, currency)
      == Unclaimed(db, creator, currency)
         + if status == Rejected && row.creator == creator && row.currency == currency then row.amount else 0
  {
    SumUpdate(db.withdrawals, w, after.withdrawals[w], PaidTo(creator, currency));
    SumUpdate(db.withdrawals, w, after.withdrawals[w], OpenOf(creator, currency));
  }

  /** Only rejecting gives a creator money back; holding, releasing and paying out leave the rest alone. */
  lemma DecisionsMoveOnlyTheirOwn(db: Db, call: Call, creator: nat, currency: string)
    requires call.HoldWithdrawal? || call.ReleaseWithdrawal? || call.RejectWithdrawal? || call.ApproveWithdrawal?
    requires Step(db, call).outcome == Done
    ensures call.withdrawal < |db.withdrawals|
    ensures
      var row := db.withdrawals[call.withdrawal];
      Unclaimed(Step(db, call).db, creator, currency)
      == Unclaimed(db, creator, currency)
         + if call.RejectWithdrawal? && row.creator == creator && row.currency == currency then row.amount else 0
  {
    var status :=
      if call.HoldWithdrawal? then Held
      else if call.ReleaseWithdrawal? then Requested
      else if call.RejectWithdrawal? then Rejected
      else Paid;
    StatusMoves(db, Step(db, call).db, call.withdrawal, status, creator, currency);
  }

  /** The moves a withdrawal can make, each by its own call. */
  predicate AllowedMove(call: Call, w: nat, before: WithdrawalRow, after: WithdrawalRow)
  {
    && after == before.(status := after.status)
    && match (before.status, after.status)
       case (Requested, Held) => call == HoldWithdrawal(w)
       case (Held, Requested) => call == ReleaseWithdrawal(w)
       case (Requested, Rejected) => call == RejectWithdrawal(w)
       case (Held, Rejected) => call == RejectWithdrawal(w)
       case (Requested, Paid) => call == ApproveWithdrawal(w, PayoutPosted) && before.destination.Some?
       case _ => false
  }

  predicate DecidesWithdrawal(call: Call)
  {
    call.HoldWithdrawal? || call.ReleaseWithdrawal? || call.RejectWithdrawal? || call.ApproveWithdrawal?
  }

  lemma CloseKeepsWithdrawals(db: Db, c: nat, readings: Readings, gateway: nat -> GatewayOutcome)
    ensures CloseStep(db, c, readings, gateway).db.withdrawals == db.withdrawals
  {
    if c < |db.campaigns| {
      RefundKeepsWithdrawals(SettleStep(SetCampaign(db, c, db.campaigns[c].(status := Closed)), c, readings).db, c,
                             gateway);
    }
  }

  lemma OtherCallsKeepWithdrawals(db: Db, call: Call)
    requires !DecidesWithdrawal(call)
    ensures db.withdrawals <= Step(db, call).db.withdrawals
  {
    match call
    case Close(c, readings, gateway) => CloseKeepsWithdrawals(db, c, readings, gateway);
    case RefundUnspent(c, gateway) => RefundKeepsWithdrawals(db, c, gateway);
    case _ =>
  }

  lemma DecisionMoves(db: Db, call: Call, w: nat)
    requires w < |db.withdrawals| && DecidesWithdrawal(call)
    ensures
      var after := Step(db, call).db;
      w < |after.withdrawals|
      && (after.withdrawals[w] != db.withdrawals[w] ==> AllowedMove(call, w, db.withdrawals[w], after.withdrawals[w]))
    ensures Step(db, call).outcome == Done && call.withdrawal == w ==>
              AllowedMove(call, w, db.withdrawals[w], Step(db, call).db.withdrawals[w])
  {
  }

  /** A withdrawal changes by an allowed move or not at all, and a decision on it that is accepted does move it. */
  lemma WithdrawalMoves(db: Db, call: Call, w: nat)
    requires w < |db.withdrawals|
    ensures
      var after := Step(db, call).db;
      w < |after.withdrawals|
      && (after.withdrawals[w] != db.withdrawals[w] ==> AllowedMove(call, w, db.withdrawals[w], after.withdrawals[w]))
    ensures DecidesWithdrawal(call) && call.withdrawal == w && Step(db, call).outcome == Done ==>
              AllowedMove(call, w, db.withdrawals[w], Step(db, call).db.withdrawals[w])
  {
    if DecidesWithdrawal(call) {
      DecisionMoves(db, call, w);
    } else {
      OtherCallsKeepWithdrawals(db, call);
    }
  }

  lemma RefundKeepsWithdrawals(db: Db, c: nat, gateway: nat -> GatewayOutcome)
    ensures RefundStep(db, c, gateway).db.withdrawals == db.withdrawals
  {
    if c < |db.campaigns| {
      RefundDownEffect(RefundRun(db, c, gateway), db, c, |db.fundings|, RefundableMinor(db, c), 0, 0,
                       db.campaigns[c].currency == WALLET_CURRENCY, gateway);
    }
  }
}
