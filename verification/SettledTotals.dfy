/**
  Where a settlement leaves every creator, told by the campaign's terms, the readings and the money it has: no
  word of the pass and none of the calculator.
 */
module SettledTotals {
  import opened Outcomes
  import opened Sums
  import opened Entitlement
  import opened EarningTable
  import opened Payments
  import opened PaymentsInvariant
  import opened PaymentsTheorems
  import opened CampaignMoney
  import opened PaymentsService
  import Settlement

  /** The views a reading has of a creator; a creator nobody measured has none. */
  function ViewsRead(readings: Readings, creator: nat): nat
  {
    if creator in readings.views then readings.views[creator] else 0
  }

  function TotalOf(db: Db, c: nat, creator: nat): int
  {
    Accrued(db.earnings, EarningKey(c, creator))
  }

  /** For each creator what the terms promise for the views read. */
  ghost predicate PromisesOf(terms: Terms, readings: Readings, promises: nat -> int)
  {
    forall creator: nat :: Promised(terms, ViewsRead(readings, creator), promises(creator))
  }

  /** What is promised beyond the total a creator has; a paused creator is owed nothing for now. */
  function Owed(db: Db, c: nat, paused: set<nat>, promises: nat -> int): nat -> int
  {
    (creator: nat) =>
      if creator in paused || promises(creator) <= TotalOf(db, c, creator) then 0
      else promises(creator) - TotalOf(db, c, creator)
  }

  /** There is one such function for any terms and readings. */
  lemma PromisesExist(terms: Terms, readings: Readings) returns (promises: nat -> int)
    ensures PromisesOf(terms, readings, promises)
    ensures forall others: nat -> int, creator: nat :: PromisesOf(terms, readings, others) ==>
              others(creator) == promises(creator)
  {
    promises := (creator: nat) => EntitledMinor(terms, ViewsRead(readings, creator));
    forall creator: nat, amount: int
      ensures Promised(terms, ViewsRead(readings, creator), amount) <==> amount == promises(creator)
    {
      EntitledIsPromised(terms, ViewsRead(readings, creator), amount);
    }
  }

  lemma PassPromises(db: Db, c: nat, readings: Readings, promises: nat -> int, pass: Settlement.Pass)
    requires c < |db.campaigns| && pass == PassFor(db, c, readings)
    requires PromisesOf(db.campaigns[c].terms, readings, promises)
    ensures forall creator: nat ::
              Settlement.Want(pass, db.earnings)(creator) == Owed(db, c, readings.paused, promises)(creator)
  {
    forall creator: nat
      ensures Settlement.Want(pass, db.earnings)(creator) == Owed(db, c, readings.paused, promises)(creator)
    {
      EntitledIsPromised(db.campaigns[c].terms, ViewsRead(readings, creator), promises(creator));
    }
  }

  /** What a settlement may still credit: the budget, and no more than was paid in and stayed. */
  ghost function ToCredit(db: Db, c: nat): int
    requires c < |db.campaigns|
  {
    var stayed := FundedMinor(db, c) - RefundedMinor(db, c);
    (if db.campaigns[c].budget < stayed then db.campaigns[c].budget else stayed) - AccruedMinor(db, c)
  }

  ghost predicate Settles(db: Db, c: nat, readings: Readings, after: Db)
  {
    && Reachable(db) && c < |db.campaigns| && db.campaigns[c].status != Draft
    && Step(db, Settle(c, readings)) == Response(after, Done)
  }

  /** The pass behind a settlement that went through. */
  lemma PassBehind(db: Db, c: nat, readings: Readings, after: Db)
    returns (pass: Settlement.Pass, progress: Settlement.Progress)
    requires Settles(db, c, readings, after)
    ensures pass == PassFor(db, c, readings) && pass.campaign == c
    ensures pass.creatorIds == readings.creatorIds && pass.paused == readings.paused
    ensures CurrencyOf(db.earnings, c, pass.currency)
    ensures progress == Settlement.Settle(pass, db.earnings, ToCredit(db, c), readings.failAt)
    ensures !progress.aborted && after.earnings == progress.rows
    ensures progress == PassResult(db, c, readings) && after == Credited(db, c, progress.rows, progress.credits)
    ensures ToCredit(db, c) == SpendableMinor(db, c) - AccruedMinor(db, c)
  {
    pass, progress := PassFor(db, c, readings), PassResult(db, c, readings);
    BudgetIsLeft(db, c);
  }

  lemma ListedGain(
    pass: Settlement.Pass, rows: Earnings, budget: int, failAt: Option<nat>, progress: Settlement.Progress,
    owed: nat -> int, k: nat, creator: nat)
    requires progress == Settlement.Settle(pass, rows, budget, failAt) && !progress.aborted
    requires CurrencyOf(rows, pass.campaign, pass.currency)
    requires forall u: nat :: Settlement.Want(pass, rows)(u) == owed(u)
    requires k < |pass.creatorIds| && creator == pass.creatorIds[k] && creator !in pass.creatorIds[..k]
    ensures
      var left := budget - SetSum(Members(pass.creatorIds[..k]), owed);
      Settlement.Gain(pass, rows, progress.rows, creator)
      == if left <= 0 then 0 else if left < owed(creator) then left else owed(creator)
  {
    Settlement.ServedInListOrder(pass, rows, budget, failAt, k, |pass.creatorIds|, progress);
    SetSumSame(Members(pass.creatorIds[..k]), owed, Settlement.Want(pass, rows));
    assert 0 <= Settlement.Want(pass, rows)(creator);
  }

  /**
    Creators are served in the order they are listed: each gains what they are owed, as far as those listed
    before them leave something to credit.
   */
  lemma SettledInListOrder(db: Db, c: nat, readings: Readings, after: Db, promises: nat -> int, k: nat)
    requires Settles(db, c, readings, after) && PromisesOf(db.campaigns[c].terms, readings, promises)
    requires k < |readings.creatorIds| && readings.creatorIds[k] !in readings.creatorIds[..k]
    ensures
      var creator, owed := readings.creatorIds[k], Owed(db, c, readings.paused, promises);
      var left := ToCredit(db, c) - SetSum(Members(readings.creatorIds[..k]), owed);
      TotalOf(after, c, creator) - TotalOf(db, c, creator)
      == if left <= 0 then 0 else if left < owed(creator) then left else owed(creator)
  {
    var pass, progress := PassBehind(db, c, readings, after);
    PassPromises(db, c, readings, promises, pass);
    ListedGain(pass, db.earnings, ToCredit(db, c), readings.failAt, progress,
               Owed(db, c, readings.paused, promises), k, readings.creatorIds[k]);
  }

  lemma OthersGainNothing(
    pass: Settlement.Pass, rows: Earnings, budget: int, failAt: Option<nat>, progress: Settlement.Progress,
    key: EarningKey)
    requires progress == Settlement.Settle(pass, rows, budget, failAt) && !progress.aborted
    requires CurrencyOf(rows, pass.campaign, pass.currency)
    requires key.campaign != pass.campaign || key.creator in pass.paused || key.creator !in pass.creatorIds
    ensures Accrued(progress.rows, key) == Accrued(rows, key)
  {
    var after := Settlement.PassEnds(pass, rows, budget, failAt);
    if key.campaign == pass.campaign {
      assert Settlement.Gain(pass, rows, after.rows, key.creator) == 0;
      assert key == EarningKey(pass.campaign, key.creator);
    } else {
      assert RowAt(after.rows, key) == RowAt(rows, key);
    }
  }

  /** Nobody paused, unlisted or of another campaign gains anything. */
  lemma OthersKeepTheirTotal(db: Db, c: nat, readings: Readings, after: Db, other: nat, creator: nat)
    requires Settles(db, c, readings, after)
    requires other != c || creator in readings.paused || creator !in readings.creatorIds
    ensures TotalOf(after, other, creator) == TotalOf(db, other, creator)
  {
    var pass, progress := PassBehind(db, c, readings, after);
    OthersGainNothing(pass, db.earnings, ToCredit(db, c), readings.failAt, progress, EarningKey(other, creator));
  }

  /**
    With money to spare afterwards, every listed, unpaused creator has what the terms promise for their views,
    or the total they had if that is more; everyone else keeps their total.
   */
  lemma SettledInFull(db: Db, c: nat, readings: Readings, after: Db, creator: nat, promised: int)
    requires Settles(db, c, readings, after)
    requires AccruedMinor(after, c) < db.campaigns[c].budget
    requires AccruedMinor(after, c) < FundedMinor(db, c) - RefundedMinor(db, c)
    requires Promised(db.campaigns[c].terms, ViewsRead(readings, creator), promised)
    ensures TotalOf(after, c, creator)
            == if creator in readings.creatorIds && creator !in readings.paused && TotalOf(db, c, creator) < promised
               then promised else TotalOf(db, c, creator)
  {
    if creator in readings.creatorIds && creator !in readings.paused {
      var pass, progress := PassBehind(db, c, readings, after);
      EntitledIsPromised(db.campaigns[c].terms, ViewsRead(readings, creator), promised);
      Settlement.BudgetPaysForGains(pass, db.earnings, ToCredit(db, c), readings.failAt);
      Settlement.LeavesNoOneShort(pass, db.earnings, ToCredit(db, c), readings.failAt);
    } else {
      OthersKeepTheirTotal(db, c, readings, after, c, creator);
    }
  }

  /** The creator at `k` is listed there first, owed something, and those before leave something to credit. */
  ghost predicate Due(db: Db, c: nat, readings: Readings, owed: nat -> int, k: nat)
    requires c < |db.campaigns|
  {
    && k < |readings.creatorIds| && readings.creatorIds[k] !in readings.creatorIds[..k]
    && 0 < owed(readings.creatorIds[k])
    && SetSum(Members(readings.creatorIds[..k]), owed) < ToCredit(db, c)
  }

  /** A settlement goes through exactly when the campaign exists and the posting that throws is not due. */
  lemma SettlesUnlessItThrows(db: Db, c: nat, readings: Readings, promises: nat -> int)
    requires Reachable(db) && c < |db.campaigns| && db.campaigns[c].status != Draft
    requires PromisesOf(db.campaigns[c].terms, readings, promises)
    ensures
      var owed := Owed(db, c, readings.paused, promises);
      Step(db, Settle(c, readings)).outcome == Done
      <==> !(readings.failAt.Some? && Due(db, c, readings, owed, readings.failAt.value))
  {
    var pass, owed := PassFor(db, c, readings), Owed(db, c, readings.paused, promises);
    BudgetIsLeft(db, c);
    PassPromises(db, c, readings, promises, pass);
    DueInThePass(pass, db.earnings, PassBudget(db, c), readings.failAt, owed);
  }

  lemma DueInThePass(pass: Settlement.Pass, rows: Earnings, budget: int, failAt: Option<nat>, owed: nat -> int)
    requires CurrencyOf(rows, pass.campaign, pass.currency)
    requires forall u: nat :: Settlement.Want(pass, rows)(u) == owed(u)
    ensures Settlement.Settle(pass, rows, budget, failAt).aborted <==>
            && failAt.Some? && failAt.value < |pass.creatorIds|
            && pass.creatorIds[failAt.value] !in pass.creatorIds[..failAt.value]
            && 0 < owed(pass.creatorIds[failAt.value])
            && SetSum(Members(pass.creatorIds[..failAt.value]), owed) < budget
  {
    Settlement.AbortsExactlyWhenDue(pass, rows, budget, failAt);
    if failAt.Some? && failAt.value < |pass.creatorIds| {
      SetSumSame(Members(pass.creatorIds[..failAt.value]), owed, Settlement.Want(pass, rows));
    }
  }

  /** A creator listed twice is credited on the first line; the second shows the total read beforehand. */
  predicate LineIsTrue(
    before: Db, c: nat, readings: Readings, after: Db, creator: nat, repeated: bool,
    line: Settlement.CreatorSettlement)
  {
    && line.creator == creator && line.views == ViewsRead(readings, creator)
    && line.paused == (creator in readings.paused)
    && line.accrued == TotalOf(if repeated then before else after, c, creator)
    && line.creditedNow == if repeated then 0 else TotalOf(after, c, creator) - TotalOf(before, c, creator)
  }

  /** The report of a pass, line by line. */
  lemma ReportAt(
    pass: Settlement.Pass, rows: Earnings, budget: int, failAt: Option<nat>, progress: Settlement.Progress, i: nat)
    requires progress == Settlement.Settle(pass, rows, budget, failAt) && !progress.aborted
    requires CurrencyOf(rows, pass.campaign, pass.currency)
    ensures |progress.creators| == |pass.creatorIds|
    ensures i < |pass.creatorIds| ==>
              Settlement.TrueLine(pass, rows, progress.rows, pass.creatorIds[i],
                                  pass.creatorIds[i] in pass.creatorIds[..i], progress.creators[i])
  {
    Settlement.ReportIsTrue(pass, rows, budget, failAt, |pass.creatorIds|);
    assert pass.creatorIds[..|pass.creatorIds|] == pass.creatorIds;
  }

  lemma SummaryOf(db: Db, c: nat, readings: Readings, after: Db, summary: Summary)
    returns (pass: Settlement.Pass, progress: Settlement.Progress)
    requires Settles(db, c, readings, after) && Summarises(db, c, readings, summary)
    ensures pass == PassFor(db, c, readings) && pass.campaign == c
    ensures pass.creatorIds == readings.creatorIds && pass.paused == readings.paused
    ensures CurrencyOf(db.earnings, c, pass.currency)
    ensures progress == Settlement.Settle(pass, db.earnings, ToCredit(db, c), readings.failAt)
    ensures !progress.aborted && after.earnings == progress.rows
    ensures summary.creators == progress.creators && summary.budgetRemaining == progress.budget
    ensures summary.totalAccrued == ToCredit(db, c) + AccruedMinor(db, c) - progress.budget
    ensures c < |after.campaigns| && after.campaigns == db.campaigns
    ensures after.fundings == db.fundings && after.refunds == db.refunds
  {
    pass, progress := PassBehind(db, c, readings, after);
  }

  /** One line of the summary the caller gets, true of the readings and of the totals before and after. */
  lemma SummaryLineIsTrue(db: Db, c: nat, readings: Readings, after: Db, summary: Summary, i: nat)
    requires Settles(db, c, readings, after) && Summarises(db, c, readings, summary)
    ensures |summary.creators| == |readings.creatorIds|
    ensures i < |readings.creatorIds| ==>
              LineIsTrue(db, c, readings, after, readings.creatorIds[i],
                         readings.creatorIds[i] in readings.creatorIds[..i], summary.creators[i])
  {
    var pass, progress := SummaryOf(db, c, readings, after, summary);
    ReportAt(pass, db.earnings, ToCredit(db, c), readings.failAt, progress, i);
  }

  /** The totals of the summary: what all creators have, and what is left to credit now. */
  lemma SummaryTotalsAreTrue(db: Db, c: nat, readings: Readings, after: Db, summary: Summary)
    requires Settles(db, c, readings, after) && Summarises(db, c, readings, summary)
    ensures c < |after.campaigns|
    ensures summary.totalAccrued == AccruedMinor(after, c) && summary.budgetRemaining == ToCredit(after, c)
  {
    var pass, progress := SummaryOf(db, c, readings, after, summary);
    Settlement.BudgetPaysForGains(pass, db.earnings, ToCredit(db, c), readings.failAt);
  }

  /** Closing a dollar campaign credits its creators as a settlement just before would have. */
  lemma ClosingCreditsAlike(db: Db, c: nat, readings: Readings, gateway: nat -> GatewayOutcome)
    requires c < |db.campaigns| && db.campaigns[c].currency == "USD" && db.campaigns[c].status == Published
    ensures Step(db, Close(c, readings, gateway)).db.earnings == Step(db, Settle(c, readings)).db.earnings
  {
    ClosingReadsTheSame(db, c, readings);
    var settled := SettleStep(AsClosed(db, c), c, readings).db;
    RefundKeepsEarnings(settled, c, gateway);
  }

  lemma RefundKeepsEarnings(db: Db, c: nat, gateway: nat -> GatewayOutcome)
    ensures RefundStep(db, c, gateway).db.earnings == db.earnings
  {
    if c < |db.campaigns| {
      RefundDownEffect(RefundRun(db, c, gateway), db, c, |db.fundings|, RefundableMinor(db, c), 0, 0,
                       db.campaigns[c].currency == WALLET_CURRENCY, gateway);
    }
  }

  /** A draft has no submissions to settle. */
  lemma DraftSettlesNothing(db: Db, c: nat, readings: Readings)
    requires c < |db.campaigns| && db.campaigns[c].status == Draft
    ensures Step(db, Settle(c, readings)) == Response(db, Done)
  {
    EmptyPassSettles(db, c, readings, PassResult(db, c, readings));
  }
}
