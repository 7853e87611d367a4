/**
  A campaign's money from funding to closing (src/modules/payments/application/refund.service.ts:39-93,
  campaign-close.handler.ts:25-30, earnings-settlement.service.ts:216-219).
 */
module CampaignMoney {
  import opened Outcomes
  import opened Sums
  import opened Money
  import opened Entitlement
  import opened LedgerTransactions
  import opened Ledger
  import opened EarningTable
  import opened Payments
  import opened PaymentsBooks
  import opened PaymentsInvariant
  import opened PaymentsTheorems
  import opened RefundLoop
  import opened Transfers
  import Settlement

  lemma AccruedIsNotNegative(db: Db, c: nat)
    requires EarningsOk(db)
    ensures 0 <= AccruedMinor(db, c)
  {
    forall key | key in db.earnings ensures 0 <= Contribution(db.earnings, OfCampaign(c))(key) {
      assert EarningOk(db.campaigns, key, db.earnings[key]);
    }
    SetSumNonNegative(db.earnings.Keys, Contribution(db.earnings, OfCampaign(c)));
  }

  /** Never more than the budget, never more than was paid in and stayed, never beyond a creator's cap. */
  lemma CampaignStaysWithinItsMoney(db: Db, c: nat)
    requires Reachable(db)
    requires c < |db.campaigns|
    ensures
      && 0 <= AccruedMinor(db, c) <= SpendableMinor(db, c)
      && (db.campaigns[c].status == Published ==> db.campaigns[c].budget <= TotalSucceededMinor(db, c))
      && (db.campaigns[c].status == Draft ==> AccruedMinor(db, c) == 0)
    ensures
      forall creator: nat :: db.campaigns[c].terms.cap.Some? ==>
        Accrued(db.earnings, EarningKey(c, creator)) <= db.campaigns[c].terms.cap.value
  {
    ReachableKeeps(db);
    assert Limits(db, c);
    AccruedIsNotNegative(db, c);
    forall creator: nat | db.campaigns[c].terms.cap.Some?
      ensures Accrued(db.earnings, EarningKey(c, creator)) <= db.campaigns[c].terms.cap.value
    {
      var key := EarningKey(c, creator);
      assert key in db.earnings ==> EarningOk(db.campaigns, key, db.earnings[key]);
    }
  }

  // Refunds.

  /** When a refund of unspent budget goes through, exactly the unspent budget went back. */
  lemma RefundReturnsExactlyTheUnspent(db: Db, c: nat, gateway: nat -> GatewayOutcome)
    requires Reachable(db)
    requires Step(db, RefundUnspent(c, gateway)).outcome == Done
    ensures
      var after := Step(db, RefundUnspent(c, gateway)).db;
      && RefundRun(db, c, gateway).refunded == TotalSucceededMinor(db, c) - AccruedMinor(db, c)
      && TotalSucceededMinor(after, c) == AccruedMinor(after, c) == AccruedMinor(db, c)
      && (forall again: nat -> GatewayOutcome ::
            Step(after, RefundUnspent(c, again)) == Response(after, Refused(Conflict)))
      && (forall f :: 0 <= f < |after.fundings| ==> Sum(after.refunds, RefundOn(f)) <= after.fundings[f].amount)
  {
    ReachableKeeps(db);
    StepKeeps(db, RefundUnspent(c, gateway));
    RefundIsExact(db, c, gateway);
  }

  lemma RefundIsExact(db: Db, c: nat, gateway: nat -> GatewayOutcome)
    requires Inv(db) && RefundStep(db, c, gateway).outcome == Done
    ensures c < |db.campaigns|
    ensures
      var after := RefundStep(db, c, gateway).db;
      && SameButRefunds(db, after)
      && RefundRun(db, c, gateway).refunded == TotalSucceededMinor(db, c) - AccruedMinor(db, c)
      && TotalSucceededMinor(after, c) == AccruedMinor(after, c)
  {
    var run := WholeRefund(db, c, gateway);
    if !NothingBlocks(db, c, |db.fundings|, RefundableMinor(db, c), ToWallet(db, c), gateway) {
      var f := SomethingBlocksFirst(db, c, |db.fundings|, RefundableMinor(db, c), ToWallet(db, c), gateway,
                                    |db.fundings|);
    }
  }

  predicate ToWallet(db: Db, c: nat)
    requires c < |db.campaigns|
  {
    db.campaigns[c].currency == WALLET_CURRENCY
  }

  /** Everything known of the whole loop of one call. */
  lemma WholeRefund(db: Db, c: nat, gateway: nat -> GatewayOutcome) returns (run: RefundProgress)
    requires Inv(db) && c < |db.campaigns|
    ensures run == RefundRun(db, c, gateway)
    ensures RefundEffect(db, c, RefundableMinor(db, c), 0, ToWallet(db, c), run)
    ensures NoneOverdrawn(db.fundings, db.refunds)
    ensures 0 <= AccruedMinor(db, c)
    ensures RefundableMinor(db, c) == LeftBelow(db.fundings, db.refunds, c, |db.fundings|) - AccruedMinor(db, c)
    ensures RefundableMinor(db, c) == TotalSucceededMinor(db, c) - AccruedMinor(db, c)
    ensures
      var n, remaining, toWallet := |db.fundings|, RefundableMinor(db, c), ToWallet(db, c);
      && (NothingBlocks(db, c, n, remaining, toWallet, gateway) ==> EndsUnblocked(db, c, n, remaining, 0, run))
      && forall f :: BlocksFirst(db, c, n, remaining, toWallet, gateway, f) ==>
                       EndsAt(db, c, n, remaining, 0, gateway, run, f)
  {
    run := RefundRun(db, c, gateway);
    LeftIsWhatStayed(db.fundings, db.refunds, c);
    AccruedIsNotNegative(db, c);
    assert Limits(db, c);
    LoopInClosedForm(run, db, c, |db.fundings|, RefundableMinor(db, c), 0, 0, ToWallet(db, c), gateway);
    RefundDownEffect(run, db, c, |db.fundings|, RefundableMinor(db, c), 0, 0, ToWallet(db, c), gateway);
  }

  /**
    The turn of funding `f` comes with something to take, and throws: the campaign has accrued less than what
    this funding and the older ones have left.
   */
  ghost predicate RefundBlocked(db: Db, c: nat, accrued: int, gateway: nat -> GatewayOutcome, f: nat)
    requires c < |db.campaigns|
  {
    && f < |db.fundings| && 0 < LeftOn(db.fundings, db.refunds, c, f)
    && TurnThrows(ToWallet(db, c), gateway(f))
    && accrued < LeftBelow(db.fundings, db.refunds, c, f + 1)
  }

  /**
    Stopped there, the refund leaves money behind. A return to the wallet whose posting throws has given its own
    amount back in its row, so what counts is what the older fundings have left.
   */
  ghost predicate FallsShort(db: Db, c: nat, accrued: int, gateway: nat -> GatewayOutcome, f: nat)
    requires c < |db.campaigns|
  {
    && f < |db.fundings| && 0 < LeftOn(db.fundings, db.refunds, c, f)
    && TurnThrows(ToWallet(db, c), gateway(f))
    && accrued < LeftBelow(db.fundings, db.refunds, c, if ToWallet(db, c) then f else f + 1)
  }

  lemma BlockedIsBlocks(db: Db, c: nat, gateway: nat -> GatewayOutcome, f: nat)
    requires c < |db.campaigns|
    requires RefundableMinor(db, c) == LeftBelow(db.fundings, db.refunds, c, |db.fundings|) - AccruedMinor(db, c)
    ensures RefundBlocked(db, c, AccruedMinor(db, c), gateway, f)
            <==> Blocks(db, c, |db.fundings|, RefundableMinor(db, c), ToWallet(db, c), gateway, f)
  {
  }

  lemma LoopThrowsExactlyWhenBlocked(db: Db, c: nat, gateway: nat -> GatewayOutcome, run: RefundProgress)
    requires Inv(db) && c < |db.campaigns| && run == RefundRun(db, c, gateway)
    ensures run.threw <==> exists f: nat :: RefundBlocked(db, c, AccruedMinor(db, c), gateway, f)
  {
    var n, remaining, toWallet := |db.fundings|, RefundableMinor(db, c), ToWallet(db, c);
    var same := WholeRefund(db, c, gateway);
    if NothingBlocks(db, c, n, remaining, toWallet, gateway) {
      forall f: nat ensures !RefundBlocked(db, c, AccruedMinor(db, c), gateway, f) {
        BlockedIsBlocks(db, c, gateway, f);
      }
    } else {
      var f := SomethingBlocksFirst(db, c, n, remaining, toWallet, gateway, n);
      BlockedIsBlocks(db, c, gateway, f);
    }
  }

  /** A refund throws exactly when the turn of a funding comes whose gateway or posting fails. */
  lemma RefundThrowsExactlyWhenBlocked(db: Db, c: nat, gateway: nat -> GatewayOutcome)
    requires Reachable(db) && c < |db.campaigns| && db.campaigns[c].status != Published
    requires 0 < RefundableMinor(db, c)
    ensures Step(db, RefundUnspent(c, gateway)).outcome == Refused(Threw)
            <==> exists f: nat :: RefundBlocked(db, c, AccruedMinor(db, c), gateway, f)
  {
    ReachableKeeps(db);
    LoopThrowsExactlyWhenBlocked(db, c, gateway, RefundRun(db, c, gateway));
  }

  /** Whatever stops it, a refund leaves nothing behind exactly when it does not fall short anywhere. */
  lemma RefundLeavesNothingExactly(db: Db, c: nat, gateway: nat -> GatewayOutcome, after: Db)
    requires Inv(db) && c < |db.campaigns| && db.campaigns[c].status != Published
    requires after == if RefundableMinor(db, c) <= 0 then db else RefundStep(db, c, gateway).db
    ensures SameButRefunds(db, after)
    ensures AccruedMinor(after, c) <= TotalSucceededMinor(after, c)
    ensures TotalSucceededMinor(after, c) == AccruedMinor(after, c)
            <==> !exists f: nat :: FallsShort(db, c, AccruedMinor(db, c), gateway, f)
  {
    var n, remaining, toWallet := |db.fundings|, RefundableMinor(db, c), ToWallet(db, c);
    var run := WholeRefund(db, c, gateway);
    if remaining <= 0 {
      forall f: nat ensures !FallsShort(db, c, AccruedMinor(db, c), gateway, f) {
        NotShortBeyond(db, c, AccruedMinor(db, c), gateway, f);
      }
    } else if NothingBlocks(db, c, n, remaining, toWallet, gateway) {
      forall f: nat ensures !FallsShort(db, c, AccruedMinor(db, c), gateway, f) {
        ShortIsBlocked(db, c, gateway, f);
      }
      LeftIsNotNegative(db.fundings, db.refunds, c, 0, n);
    } else {
      var f := SomethingBlocksFirst(db, c, n, remaining, toWallet, gateway, n);
      StoppedLeavesExactly(db, c, gateway, after, run, f);
    }
  }

  lemma NotShortBeyond(db: Db, c: nat, accrued: int, gateway: nat -> GatewayOutcome, f: nat)
    requires c < |db.campaigns| && NoneOverdrawn(db.fundings, db.refunds)
    requires LeftBelow(db.fundings, db.refunds, c, |db.fundings|) <= accrued
    ensures !FallsShort(db, c, accrued, gateway, f)
  {
    if f < |db.fundings| {
      LeftIsNotNegative(db.fundings, db.refunds, c, f, |db.fundings|);
      LeftIsNotNegative(db.fundings, db.refunds, c, f + 1, |db.fundings|);
    }
  }

  lemma ShortIsBlocked(db: Db, c: nat, gateway: nat -> GatewayOutcome, f: nat)
    requires c < |db.campaigns| && NoneOverdrawn(db.fundings, db.refunds)
    requires RefundableMinor(db, c) == LeftBelow(db.fundings, db.refunds, c, |db.fundings|) - AccruedMinor(db, c)
    ensures FallsShort(db, c, AccruedMinor(db, c), gateway, f) ==>
              Blocks(db, c, |db.fundings|, RefundableMinor(db, c), ToWallet(db, c), gateway, f)
  {
    if f < |db.fundings| {
      LeftIsNotNegative(db.fundings, db.refunds, c, f, f + 1);
    }
  }

  lemma StoppedLeavesExactly(
    db: Db, c: nat, gateway: nat -> GatewayOutcome, after: Db, run: RefundProgress, f: nat)
    requires c < |db.campaigns| && NoneOverdrawn(db.fundings, db.refunds)
    requires RefundableMinor(db, c) == LeftBelow(db.fundings, db.refunds, c, |db.fundings|) - AccruedMinor(db, c)
    requires RefundableMinor(db, c) == TotalSucceededMinor(db, c) - AccruedMinor(db, c)
    requires RefundEffect(db, c, RefundableMinor(db, c), 0, ToWallet(db, c), run) && after == run.db
    requires BlocksFirst(db, c, |db.fundings|, RefundableMinor(db, c), ToWallet(db, c), gateway, f)
    requires EndsAt(db, c, |db.fundings|, RefundableMinor(db, c), 0, gateway, run, f)
    ensures AccruedMinor(after, c) <= TotalSucceededMinor(after, c)
    ensures TotalSucceededMinor(after, c) == AccruedMinor(after, c)
            <==> !exists g: nat :: FallsShort(db, c, AccruedMinor(db, c), gateway, g)
  {
    forall g: nat ensures FallsShort(db, c, AccruedMinor(db, c), gateway, g) ==>
          FallsShort(db, c, AccruedMinor(db, c), gateway, f)
    {
      ShortIsBlocked(db, c, gateway, g);
      if g < f {
        LeftIsNotNegative(db.fundings, db.refunds, c, g, f);
        LeftIsNotNegative(db.fundings, db.refunds, c, g + 1, f);
        LeftIsNotNegative(db.fundings, db.refunds, c, f, f + 1);
      }
    }
    var givenBack := run.refunded + if ToWallet(db, c) then run.stuck else 0;
    assert AccruedMinor(after, c) == AccruedMinor(db, c) && FundedMinor(after, c) == FundedMinor(db, c);
    assert TotalSucceededMinor(after, c) == TotalSucceededMinor(db, c) - givenBack;
    assert givenBack == RefundableMinor(db, c) <==> !FallsShort(db, c, AccruedMinor(db, c), gateway, f);
  }

  /**
    A failure midway: `done` is what the loop counts. A return to the wallet whose posting threw has been given
    back as well, and a card refund whose posting threw has been sent as well; neither is counted. Everything
    else can be asked for again, and with it the card refund that has already been sent.
   */
  lemma FailedRefundCountsWhatWentThrough(db: Db, c: nat, gateway: nat -> GatewayOutcome)
    requires Reachable(db)
    requires Step(db, RefundUnspent(c, gateway)).outcome == Refused(Threw)
    ensures
      var after := Step(db, RefundUnspent(c, gateway)).db;
      var done, stuck := RefundRun(db, c, gateway).refunded, RefundRun(db, c, gateway).stuck;
      var givenBack := done + if ToWallet(db, c) then stuck else 0;
      && Inv(after)
      && RefundedMinor(after, c) == RefundedMinor(db, c) + givenBack
      && RefundableMinor(after, c) == RefundableMinor(db, c) - givenBack
      && SentBackMinor(after, c) == SentBackMinor(db, c) + (if ToWallet(db, c) then 0 else done + stuck)
      && 0 <= done
  {
    ReachableKeeps(db);
    RefundStepKeeps(db, c, gateway);
    var run := WholeRefund(db, c, gateway);
    LoopSends(run, db, c, |db.fundings|, RefundableMinor(db, c), 0, 0, ToWallet(db, c), gateway);
  }

  // Closing.

  function AsClosed(db: Db, c: nat): Db
    requires c < |db.campaigns|
  {
    SetCampaign(db, c, db.campaigns[c].(status := Closed))
  }

  /** What is left after settling goes back, unless a return throws with older fundings still to come. */
  lemma RestGoesBack(settled: Db, c: nat, gateway: nat -> GatewayOutcome, after: Db)
    requires Inv(settled) && c < |settled.campaigns| && settled.campaigns[c].status != Published
    requires settled.campaigns[c].currency == WALLET_CURRENCY
    requires after == if RefundableMinor(settled, c) <= 0 then settled else RefundStep(settled, c, gateway).db
    ensures after.campaigns == settled.campaigns
    ensures AccruedMinor(after, c) + RefundedMinor(after, c) <= FundedMinor(after, c)
    ensures FundedMinor(after, c) == AccruedMinor(after, c) + RefundedMinor(after, c)
            <==> !exists f: nat :: FallsShort(settled, c, AccruedMinor(settled, c), gateway, f)
  {
    RefundLeavesNothingExactly(settled, c, gateway, after);
  }

  /** The close listener's pass is due to credit the creator whose posting would throw. */
  ghost predicate ClosingThrows(db: Db, c: nat, readings: Readings)
    requires c < |db.campaigns|
  {
    readings.failAt.Some?
    && Settlement.CreditDue(PassFor(db, c, readings), db.earnings, PassBudget(db, c), readings.failAt.value)
  }

  lemma ClosingReadsTheSame(db: Db, c: nat, readings: Readings)
    requires c < |db.campaigns| && db.campaigns[c].status == Published
    ensures PassFor(AsClosed(db, c), c, readings) == PassFor(db, c, readings)
    ensures PassBudget(AsClosed(db, c), c) == PassBudget(db, c)
  {
  }

  /** A pass cut short leaves some of what the campaign holds with nobody. */
  lemma CutShortLeavesMoney(db: Db, c: nat, pass: Settlement.Pass, failAt: Option<nat>, progress: Settlement.Progress)
    requires c < |db.campaigns| && pass.campaign == c && CurrencyOf(db.earnings, c, pass.currency)
    requires progress == Settlement.Settle(pass, db.earnings, PassBudget(db, c), failAt) && progress.aborted
    ensures CampaignAccrued(progress.rows, c) < TotalSucceededMinor(db, c)
  {
    Settlement.AbortsExactlyWhenDue(pass, db.earnings, PassBudget(db, c), failAt);
    Settlement.BudgetPaysForGains(pass, db.earnings, PassBudget(db, c), failAt);
  }

  lemma ClosingSettles(db: Db, c: nat, readings: Readings, settled: Response)
    requires Reachable(db) && c < |db.campaigns| && db.campaigns[c].status == Published
    requires settled == SettleStep(AsClosed(db, c), c, readings)
    ensures Inv(settled.db) && settled.db.campaigns == AsClosed(db, c).campaigns
    ensures settled.db.refunds == db.refunds && settled.db.fundings == db.fundings
    ensures settled.outcome == Done <==> !ClosingThrows(db, c, readings)
    ensures settled.outcome != Done ==>
              settled.outcome.Refused? && AccruedMinor(settled.db, c) < TotalSucceededMinor(settled.db, c)
  {
    var pass, progress := PassFor(db, c, readings), PassResult(AsClosed(db, c), c, readings);
    ClosedAndSettledKeeps(db, c, readings);
    ClosingReadsTheSame(db, c, readings);
    BudgetIsLeft(db, c);
    Settlement.AbortsExactlyWhenDue(pass, db.earnings, PassBudget(db, c), readings.failAt);
    if progress.aborted {
      CutShortLeavesMoney(db, c, pass, readings.failAt, progress);
    }
  }

  /** What the campaign's creators have together once the close listener's pass has gone through. */
  ghost function AccruesTo(db: Db, c: nat, readings: Readings): int
    requires c < |db.campaigns|
  {
    var pass := PassFor(db, c, readings);
    AccruedMinor(db, c)
    + Settlement.Min(PassBudget(db, c), SetSum(Members(pass.creatorIds), Settlement.Want(pass, db.earnings)))
  }

  /** The posting of a return throws while older fundings hold more than was earned. */
  ghost predicate ReturnFallsShort(db: Db, c: nat, readings: Readings, gateway: nat -> GatewayOutcome)
    requires c < |db.campaigns|
  {
    exists f: nat :: FallsShort(db, c, AccruesTo(db, c, readings), gateway, f)
  }

  /** Nothing stops the close listener before the money is split. */
  ghost predicate ClosesCleanly(db: Db, c: nat, readings: Readings, gateway: nat -> GatewayOutcome)
    requires c < |db.campaigns|
  {
    !ClosingThrows(db, c, readings) && !ReturnFallsShort(db, c, readings, gateway)
  }

  lemma SettledAccrues(db: Db, c: nat, readings: Readings, settled: Response)
    requires Reachable(db) && c < |db.campaigns| && db.campaigns[c].status == Published
    requires settled == SettleStep(AsClosed(db, c), c, readings) && settled.outcome == Done
    ensures c < |settled.db.campaigns| && settled.db.campaigns == AsClosed(db, c).campaigns
    ensures AccruedMinor(settled.db, c) == AccruesTo(db, c, readings)
  {
    ClosingReadsTheSame(db, c, readings);
    BudgetIsLeft(db, c);
    PassSummary(PassFor(db, c, readings), db.earnings, PassBudget(db, c), readings.failAt,
                PassResult(AsClosed(db, c), c, readings));
  }

  /**
    Closing a wallet-currency campaign splits what was paid in into what creators earned and what went
    back, exactly unless a posting of its settlement pass throws, or the posting of a return throws while
    older fundings hold more than was earned; then something is left with nobody.
   */
  lemma ClosingSplitsTheMoney(
    db: Db, c: nat, readings: Readings, gateway: nat -> GatewayOutcome, after: Db)
    requires Reachable(db)
    requires c < |db.campaigns| && db.campaigns[c].currency == WALLET_CURRENCY
    requires db.campaigns[c].status == Published
    requires after == Step(db, Close(c, readings, gateway)).db
    ensures Step(db, Close(c, readings, gateway)).outcome == Done && after.campaigns == AsClosed(db, c).campaigns
    ensures AccruedMinor(after, c) + RefundedMinor(after, c) <= FundedMinor(after, c)
    ensures FundedMinor(after, c) == AccruedMinor(after, c) + RefundedMinor(after, c)
            <==> ClosesCleanly(db, c, readings, gateway)
    ensures ClosingThrows(db, c, readings) ==> after.refunds == db.refunds
  {
    var settled := SettleStep(AsClosed(db, c), c, readings);
    ClosingSettles(db, c, readings, settled);
    if settled.outcome == Done {
      SettledAccrues(db, c, readings, settled);
      RestGoesBack(settled.db, c, gateway, after);
      forall f: nat
        ensures FallsShort(settled.db, c, AccruedMinor(settled.db, c), gateway, f)
            <==> FallsShort(db, c, AccruesTo(db, c, readings), gateway, f)
      {
      }
    }
  }

  lemma ClosedAndSettledKeeps(db: Db, c: nat, readings: Readings)
    requires Reachable(db) && c < |db.campaigns| && db.campaigns[c].status == Published
    ensures Inv(SettleStep(AsClosed(db, c), c, readings).db)
  {
    ReachableKeeps(db);
    CampaignChangeKeeps(db, c, db.campaigns[c].(status := Closed));
    SettleKeeps(AsClosed(db, c), c, readings);
  }

  /** With nothing left to spend, a settlement pass changes nothing, whatever it reads. */
  lemma SpentCampaignCreditsNothing(db: Db, c: nat, readings: Readings)
    requires c < |db.campaigns| && TotalSucceededMinor(db, c) <= AccruedMinor(db, c)
    ensures SettleStep(db, c, readings) == Response(db, Done)
  {
    var pass := PassFor(db, c, readings);
    Settlement.NothingOwedNothingDone(pass, db.earnings, PassBudget(db, c), readings.failAt,
                                      |pass.creatorIds|);
  }

  lemma PassSummary(
    pass: Settlement.Pass, rows: Earnings, budget: nat, failAt: Option<nat>, progress: Settlement.Progress)
    requires CurrencyOf(rows, pass.campaign, pass.currency)
    requires progress == Settlement.Settle(pass, rows, budget, failAt)
    ensures CampaignAccrued(progress.rows, pass.campaign) - CampaignAccrued(rows, pass.campaign)
        == budget - progress.budget
    ensures 0 <= progress.budget
    ensures !progress.aborted ==>
              budget - progress.budget
              == Settlement.Min(budget, SetSum(Members(pass.creatorIds), Settlement.Want(pass, rows)))
  {
    Settlement.BudgetPaysForGains(pass, rows, budget, failAt);
    Settlement.PassIsSound(pass, rows, budget, failAt, |pass.creatorIds|);
    if !progress.aborted {
      Settlement.CreditsExactlyWhatIsOwed(pass, rows, budget, failAt);
      SetSumNonNegative(Members(pass.creatorIds), Settlement.Want(pass, rows));
    }
  }

  lemma BudgetIsLeft(db: Db, c: nat)
    requires Reachable(db) && c < |db.campaigns|
    ensures AccruedMinor(db, c) <= SpendableMinor(db, c)
    ensures CurrencyOf(db.earnings, c, db.campaigns[c].currency)
  {
    ReachableKeeps(db);
    CampaignCurrency(db, c);
    assert Limits(db, c);
  }

  /** The reported totals of a pass: what is left of the budget, and what all creators have. */
  lemma SummaryIsTrue(db: Db, c: nat, readings: Readings, pass: Settlement.Pass, progress: Settlement.Progress)
    requires Reachable(db) && c < |db.campaigns|
    requires pass == PassFor(db, c, readings) && progress == PassResult(db, c, readings)
    ensures 0 <= progress.budget
    ensures SpendableMinor(db, c) - progress.budget == CampaignAccrued(progress.rows, c)
    ensures !progress.aborted ==>
              CampaignAccrued(progress.rows, c) - AccruedMinor(db, c)
              == Settlement.Min(PassBudget(db, c),
                                SetSum(Members(pass.creatorIds), Settlement.Want(pass, db.earnings)))
  {
    BudgetIsLeft(db, c);
    SummaryFrom(db, c, pass, PassBudget(db, c), readings.failAt, progress);
  }

  lemma SummaryFrom(
    db: Db, c: nat, pass: Settlement.Pass, budget: nat, failAt: Option<nat>, progress: Settlement.Progress)
    requires c < |db.campaigns| && pass.campaign == c && CurrencyOf(db.earnings, c, pass.currency)
    requires budget == PassBudget(db, c)
    requires progress == Settlement.Settle(pass, db.earnings, budget, failAt)
    ensures 0 <= progress.budget
    ensures SpendableMinor(db, c) - progress.budget == CampaignAccrued(progress.rows, c)
    ensures !progress.aborted ==>
              CampaignAccrued(progress.rows, c) - AccruedMinor(db, c)
              == Settlement.Min(budget, SetSum(Members(pass.creatorIds), Settlement.Want(pass, db.earnings)))
  {
    PassSummary(pass, db.earnings, budget, failAt, progress);
  }

  lemma SecondPassStops(
    pass: Settlement.Pass, rows: Earnings, budget: nat, failAt: Option<nat>, first: Settlement.Progress,
    second: Settlement.Progress)
    requires CurrencyOf(rows, pass.campaign, pass.currency)
    requires first == Settlement.Settle(pass, rows, budget, failAt) && !first.aborted
    requires second == Settlement.Settle(pass, first.rows, first.budget, failAt)
    ensures !second.aborted && second.credits == [] && second.rows == first.rows
  {
    Settlement.SecondPassCreditsNothing(pass, rows, budget, failAt, failAt);
  }

  /** Reading budget and totals afresh gives what the first pass left. */
  lemma BudgetReadAfresh(
    db: Db, c: nat, readings: Readings, pass: Settlement.Pass, first: Settlement.Progress, after: Db)
    requires c < |db.campaigns| && pass == PassFor(db, c, readings)
    requires SpendableMinor(db, c) - first.budget == CampaignAccrued(first.rows, c)
    requires after == Credited(db, c, first.rows, first.credits)
    ensures PassResult(after, c, readings) == Settlement.Settle(pass, first.rows, first.budget, readings.failAt)
  {
    assert PassFor(after, c, readings) == pass;
    assert PassBudget(after, c) == first.budget;
  }

  lemma EmptyPassSettles(db: Db, c: nat, readings: Readings, result: Settlement.Progress)
    requires c < |db.campaigns| && result == PassResult(db, c, readings)
    requires !result.aborted && result.credits == [] && result.rows == db.earnings
    ensures SettleStep(db, c, readings) == Response(db, Done)
  {
    assert db.journal + [] == db.journal;
  }

  lemma SecondSettleStops(
    db: Db, c: nat, readings: Readings, pass: Settlement.Pass, first: Settlement.Progress, after: Db)
    requires Reachable(db) && c < |db.campaigns|
    requires pass == PassFor(db, c, readings) && first == PassResult(db, c, readings) && !first.aborted
    requires c < |after.campaigns| && after.earnings == first.rows
    requires PassResult(after, c, readings) == Settlement.Settle(pass, first.rows, first.budget, readings.failAt)
    ensures SettleStep(after, c, readings) == Response(after, Done)
  {
    var second := PassResult(after, c, readings);
    BudgetIsLeft(db, c);
    SecondPassStops(pass, db.earnings, PassBudget(db, c), readings.failAt, first, second);
    EmptyPassSettles(after, c, readings, second);
  }

  /** Settling twice on the same readings is settling once, budget and totals read afresh. */
  lemma SettlingAgainChangesNothing(db: Db, c: nat, readings: Readings, after: Db)
    requires Reachable(db) && c < |db.campaigns|
    requires Step(db, Settle(c, readings)) == Response(after, Done)
    ensures Step(after, Settle(c, readings)) == Response(after, Done)
  {
    var pass, first := PassFor(db, c, readings), PassResult(db, c, readings);
    SummaryIsTrue(db, c, readings, pass, first);
    BudgetReadAfresh(db, c, readings, pass, first, after);
    SecondSettleStops(db, c, readings, pass, first, after);
  }
}
