/** What a closed campaign comes to: its money split for good, or a closing whose settlement was cut short. */
module ClosedCampaigns {
  import opened Outcomes
  import opened Sums
  import opened Money
  import opened Entitlement
  import opened LedgerTransactions
  import opened Ledger
  import opened EarningTable
  import opened Payments
  import opened PaymentsBooks
  import opened PaymentsInvariant
  import opened PaymentsTheorems
  import opened RefundLoop
  import opened CampaignMoney
  import opened CallEffects
  import opened History
  import Settlement

  lemma {:induction false} ReachableRun(db: Db, calls: seq<Call>)
    requires Reachable(db)
    ensures Reachable(RunFrom(db, calls))
    decreases calls
  {
    if calls != [] {
      ReachableStep(db, calls[0]);
      ReachableRun(Step(db, calls[0]).db, calls[1..]);
    }
  }

  /** Running totals that only grow add up to campaign totals that only grow. */
  lemma AccruedGrows(before: Earnings, after: Earnings, c: nat)
    requires forall key :: Accrued(before, key) <= Accrued(after, key)
    ensures CampaignAccrued(before, c) <= CampaignAccrued(after, c)
  {
    var all := before.Keys + after.Keys;
    SetSumOfPart(all, before.Keys, Contribution(before, OfCampaign(c)));
    SetSumOfPart(all, after.Keys, Contribution(after, OfCampaign(c)));
    forall key | key in all
      ensures Contribution(before, OfCampaign(c))(key) <= Contribution(after, OfCampaign(c))(key)
    {
      assert Accrued(before, key) <= Accrued(after, key);
    }
    SetSumMonotone(all, Contribution(before, OfCampaign(c)), Contribution(after, OfCampaign(c)));
  }

  lemma RefundedGrows(before: Db, after: Db, c: nat)
    requires before.refunds <= after.refunds
    ensures RefundedMinor(before, c) <= RefundedMinor(after, c)
  {
    var newer := after.refunds[|before.refunds|..];
    assert after.refunds == before.refunds + newer;
    SumConcat(before.refunds, newer, RefundOf(c));
    SumNonNegative(newer, RefundOf(c));
  }

  /** Once a campaign has nothing left, it has nothing left after any run of calls that brings it no money. */
  lemma SpentStaysSpent(db: Db, c: nat, calls: seq<Call>, later: Db)
    requires Reachable(db) && c < |db.campaigns| && TotalSucceededMinor(db, c) <= AccruedMinor(db, c)
    requires later == RunFrom(db, calls) && FundedMinor(later, c) == FundedMinor(db, c)
    ensures c < |later.campaigns|
    ensures TotalSucceededMinor(later, c) == AccruedMinor(later, c)
  {
    HistoryStands(db, calls);
    AccruedGrows(db.earnings, later.earnings, c);
    RefundedGrows(db, later, c);
    assert c < |later.campaigns| && Limits(later, c) by {
      ReachableRun(db, calls);
      ReachableKeeps(later);
    }
  }

  /**
    After a closing that split its campaign's money, every settlement pass changes nothing, after any calls
    and on any readings, until new funding arrives.
   */
  lemma ClosedCampaignStaysSplit(
    db: Db, c: nat, readings: Readings, gateway: nat -> GatewayOutcome, calls: seq<Call>, later: Db,
    laterReadings: Readings)
    requires Reachable(db) && c < |db.campaigns|
    requires db.campaigns[c].currency == WALLET_CURRENCY && db.campaigns[c].status == Published
    requires ClosesCleanly(db, c, readings, gateway)
    requires later == RunFrom(Step(db, Close(c, readings, gateway)).db, calls)
    requires FundedMinor(later, c) == FundedMinor(Step(db, Close(c, readings, gateway)).db, c)
    ensures Step(later, Settle(c, laterReadings)) == Response(later, Done)
    ensures FundedMinor(later, c) == AccruedMinor(later, c) + RefundedMinor(later, c)
  {
    var close := Close(c, readings, gateway);
    var closed := Step(db, close).db;
    ReachableStep(db, close);
    ClosingSplitsTheMoney(db, c, readings, gateway, closed);
    SpentStaysSpent(closed, c, calls, later);
    SpentCampaignCreditsNothing(later, c, laterReadings);
  }

  lemma FirstCreatorIsDue(pass: Settlement.Pass, creator: nat, budget: int)
    requires pass.creatorIds == [creator] && creator !in pass.paused && 0 < pass.entitled(creator) && 0 < budget
    ensures Settlement.CreditDue(pass, map[], budget, 0)
  {
    assert pass.creatorIds[..0] == [];
    assert Members(pass.creatorIds[..0]) == {};
  }

  lemma PublishedCampaign() returns (db: Db)
    ensures Reachable(db) && db.earnings == map[]
    ensures db.campaigns == [Campaign(7, "USD", 100, Terms(FixedPerItem, 10, None), Published)]
    ensures TotalSucceededMinor(db, 0) == 100 && db.withdrawals == [] && db.sent == []
  {
    var draft := FundedDraft(Terms(FixedPerItem, 10, None));
    db := Step(draft, Publish(0, true)).db;
    ReachableStep(draft, Publish(0, true));
  }

  /** A closing whose settlement posting throws: 100 paid in, 10 due to creator 1, and nothing credited or returned. */
  lemma ClosingCanThrow() returns (db: Db, readings: Readings)
    ensures Reachable(db) && |db.campaigns| == 1
    ensures db.campaigns[0].currency == WALLET_CURRENCY && db.campaigns[0].status == Published
    ensures ClosingThrows(db, 0, readings)
  {
    db := PublishedCampaign();
    readings := Readings([1], map[], {}, Some(0));
    var pass := PassFor(db, 0, readings);
    assert CampaignAccrued(map[], 0) == 0;
    assert pass.entitled(1) == 10;
    FirstCreatorIsDue(pass, 1, PassBudget(db, 0));
  }

  /** The same campaign with a second, newer payment of 50. */
  lemma TwicePaidCampaign() returns (db: Db)
    ensures Reachable(db) && db.earnings == map[] && db.refunds == []
    ensures db.campaigns == [Campaign(7, "USD", 100, Terms(FixedPerItem, 10, None), Published)]
    ensures |db.fundings| == 2 && TotalSucceededMinor(db, 0) == 150
    ensures db.fundings[0].campaign == 0 && db.fundings[0].status == Succeeded && db.fundings[0].amount == 100
    ensures db.fundings[1].campaign == 0 && db.fundings[1].status == Succeeded && db.fundings[1].amount == 50
  {
    var draft := FundedDraft(Terms(FixedPerItem, 10, None));
    var publish, pay := Publish(0, true), CreateFunding(0, 50, 0, 2, true, false);
    var published := Step(draft, publish).db;
    ReachableStep(draft, publish);
    ReachableStep(published, pay);
    assert published.fundings == draft.fundings;
    BypassSettlesAtOnce(published, 0, 50, 0, 2);
    db := Step(published, pay).db;
    SumAppend(published.fundings, db.fundings[1], FundingOf(0));
    SumAppend([], draft.fundings[0], FundingOf(0));
    assert draft.fundings == [] + [draft.fundings[0]];
  }

  /** A closing whose first return throws: the newer payment is given back in its row, the older one is not. */
  lemma ReturnCanFallShort() returns (db: Db, readings: Readings, gateway: nat -> GatewayOutcome)
    ensures Reachable(db) && |db.campaigns| == 1
    ensures db.campaigns[0].currency == WALLET_CURRENCY && db.campaigns[0].status == Published
    ensures !ClosingThrows(db, 0, readings) && ReturnFallsShort(db, 0, readings, gateway)
  {
    db := TwicePaidCampaign();
    readings := Readings([], map[], {}, None);
    gateway := (f: nat) => PostingFails;
    assert CampaignAccrued(map[], 0) == 0;
    assert Members(PassFor(db, 0, readings).creatorIds) == {};
    assert AccruesTo(db, 0, readings) == 0;
    assert LeftOn(db.fundings, db.refunds, 0, 0) == 100 && LeftOn(db.fundings, db.refunds, 0, 1) == 50;
    assert LeftBelow(db.fundings, db.refunds, 0, 1) == 100;
    assert FallsShort(db, 0, 0, gateway, 1);
  }
}
