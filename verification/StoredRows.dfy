/**
  What each accepted call stores, column by column, when it is accepted, and that it leaves every other row alone.
  Amounts, statuses and limits are written out here rather than taken from the calls.
 */
module StoredRows {
  import opened Outcomes
  import opened Sums
  import opened Money
  import opened Entitlement
  import opened LedgerTransactions
  import opened Ledger
  import opened EarningTable
  import opened Payments
  import opened PaymentsInvariant
  import opened PaymentsTheorems
  import opened CallEffects
  import opened History
  import opened ClosedCampaigns

  // Payments.

  predicate Free(fundings: seq<Funding>, reference: PaymentReference)
  {
    forall i :: 0 <= i < |fundings| ==> fundings[i].reference != reference
  }

  predicate FreeTopUp(topUps: seq<TopUp>, reference: PaymentReference)
  {
    forall i :: 0 <= i < |topUps| ==> topUps[i].reference != reference
  }

  /** The integer nearest to the share in basis points, upwards on a tie. */
  predicate NearestShare(amount: int, feeBps: Bps, fee: int)
  {
    -10000 <= 2 * (amount * feeBps - 10000 * fee) < 10000
  }

  /** The row a payment for this campaign is to be stored as. */
  predicate IsPaymentFor(row: Funding, campaigns: seq<Campaign>, c: nat, amount: int, feeBps: Bps)
  {
    && c < |campaigns| && row.campaign == c
    && row.organization == campaigns[c].organization && row.currency == campaigns[c].currency
    && row.amount == amount && NearestShare(amount, feeBps, row.fee)
  }

  /** A posting that throws leaves the ledger alone, and one that does not loses nothing. */
  predicate Untouched(before: Db, after: Db, throws: bool)
  {
    if throws then after.journal == before.journal else after.unposted == before.unposted
  }

  /** A checkout stores one pending payment of the amount asked for and does nothing else. */
  lemma CheckoutStores(
    db: Db, c: nat, amount: int, feeBps: Bps, id: nat, throws: bool, response: Response)
    requires response == Step(db, CreateFunding(c, amount, feeBps, id, false, throws))
    ensures response.outcome == Done <==> 0 < amount && c < |db.campaigns| && Free(db.fundings, Checkout(id))
    ensures response.outcome != Done ==> response.db == db
    ensures response.outcome == Done ==>
              && |response.db.fundings| == |db.fundings| + 1
              && var row := response.db.fundings[|db.fundings|];
                 && IsPaymentFor(row, db.campaigns, c, amount, feeBps)
                 && row.status == Pending && row.reference == Checkout(id)
                 && response.db == db.(fundings := db.fundings + [row])
  {
    FeeIsNearest(amount, feeBps, FeeMinor(amount, feeBps));
  }

  /** With the gateway bypassed the same row is stored as succeeded, whether or not its posting throws. */
  lemma BypassStores(
    db: Db, c: nat, amount: int, feeBps: Bps, id: nat, throws: bool, response: Response)
    requires response == Step(db, CreateFunding(c, amount, feeBps, id, true, throws))
    ensures response.outcome == Done
            <==> 0 < amount && c < |db.campaigns| && Free(db.fundings, Bypass(id)) && !throws
    ensures response.outcome == Refused(Threw)
            <==> 0 < amount && c < |db.campaigns| && Free(db.fundings, Bypass(id)) && throws
    ensures response.outcome != Done && response.outcome != Refused(Threw) ==> response.db == db
    ensures response.outcome == Done || response.outcome == Refused(Threw) ==>
              && |response.db.fundings| == |db.fundings| + 1
              && var row := response.db.fundings[|db.fundings|];
                 && IsPaymentFor(row, db.campaigns, c, amount, feeBps)
                 && row.status == Succeeded && row.reference == Bypass(id)
                 && Untouched(db, response.db, throws)
                 && response.db.(journal := db.journal, unposted := db.unposted)
                    == db.(fundings := db.fundings + [row])
  {
    FeeIsNearest(amount, feeBps, FeeMinor(amount, feeBps));
    FeeWithinBudget(if 0 < amount then amount else 0, feeBps);
  }

  /** A wallet payment is stored as succeeded when it is in dollars and the wallet covers amount and fee. */
  lemma WalletPaymentStores(
    db: Db, c: nat, amount: int, feeBps: Bps, id: nat, fee: int, throws: bool, response: Response)
    requires NearestShare(amount, feeBps, fee)
    requires response == Step(db, FundFromWallet(c, amount, feeBps, id, throws))
    ensures response.outcome == Done || response.outcome == Refused(Threw) <==>
            && 0 < amount && c < |db.campaigns| && db.campaigns[c].currency == "USD"
            && amount + fee <= Balance(db.journal, Wallet(db.campaigns[c].organization, "USD"))
            && Free(db.fundings, FromWallet(id))
    ensures response.outcome == Refused(Threw) ==> throws
    ensures response.outcome == Done ==> !throws
    ensures response.outcome != Done && response.outcome != Refused(Threw) ==> response.db == db
    ensures response.outcome == Done || response.outcome == Refused(Threw) ==>
              && |response.db.fundings| == |db.fundings| + 1
              && var row := response.db.fundings[|db.fundings|];
                 && IsPaymentFor(row, db.campaigns, c, amount, feeBps) && row.fee == fee
                 && row.status == Succeeded && row.reference == FromWallet(id)
                 && Untouched(db, response.db, throws)
                 && response.db.(journal := db.journal, unposted := db.unposted)
                    == db.(fundings := db.fundings + [row])
  {
    FeeIsNearest(amount, feeBps, fee);
    FeeWithinBudget(if 0 < amount then amount else 0, feeBps);
  }

  /** Fifty to twenty-five thousand dollars, for one brand's wallet, pending until the gateway's event. */
  lemma TopUpStores(db: Db, organization: nat, amount: int, id: nat, throws: bool, response: Response)
    requires response == Step(db, CreateTopUp(organization, amount, id, false, throws))
    ensures response.outcome == Done <==> 5000 <= amount <= 2500000 && FreeTopUp(db.topUps, Checkout(id))
    ensures response.db == if response.outcome != Done then db
                           else db.(topUps := db.topUps + [TopUp(organization, amount, "USD", Pending, Checkout(id))])
  {
  }

  lemma BypassedTopUpStores(db: Db, organization: nat, amount: int, id: nat, throws: bool, response: Response)
    requires response == Step(db, CreateTopUp(organization, amount, id, true, throws))
    ensures response.outcome == (if throws then Refused(Threw) else Done)
            <==> 5000 <= amount <= 2500000 && FreeTopUp(db.topUps, Bypass(id))
    ensures Untouched(db, response.db, throws)
    ensures response.db.(journal := db.journal, unposted := db.unposted) ==
            if 5000 <= amount <= 2500000 && FreeTopUp(db.topUps, Bypass(id))
            then db.(topUps := db.topUps + [TopUp(organization, amount, "USD", Succeeded, Bypass(id))])
            else db
  {
  }

  lemma EventOnFunding(db: Db, f: nat, succeeded: bool, throws: bool, after: Db)
    requires DistinctFundings(db.fundings) && f < |db.fundings| && db.fundings[f].status == Pending
    requires after == MarkFunding(db, db.fundings[f].reference, succeeded, throws)
    ensures after.(journal := db.journal, unposted := db.unposted)
            == db.(fundings := db.fundings[f := db.fundings[f].(status := Verdict(succeeded))])
  {
  }

  lemma EventOnTopUp(db: Db, reference: PaymentReference, succeeded: bool, throws: bool, after: Db)
    requires after == MarkTopUp(db, reference, succeeded, throws)
    ensures after.fundings == db.fundings && after.refunds == db.refunds && after.earnings == db.earnings
  {
  }

  lemma EventLeaves(db: Db, f: nat, succeeded: bool, throws: bool, after: Db)
    requires DistinctFundings(db.fundings) && f < |db.fundings| && db.fundings[f].status == Pending
    requires after == WebhookStep(db, db.fundings[f].reference, succeeded, throws).db
    ensures after.fundings == db.fundings[f := db.fundings[f].(status := Verdict(succeeded))]
    ensures after.refunds == db.refunds && after.earnings == db.earnings
  {
    var reference := db.fundings[f].reference;
    var marked := MarkFunding(db, reference, succeeded, throws);
    EventOnFunding(db, f, succeeded, throws, marked);
    EventOnTopUp(marked, reference, succeeded, throws, MarkTopUp(marked, reference, succeeded, throws));
  }

  /**
    The success event of a pending payment adds its amount to what its campaign was paid and nothing to any
    other campaign; a failure event adds nothing anywhere.
   */
  lemma EventPays(db: Db, f: nat, succeeded: bool, throws: bool, after: Db, c: nat)
    requires Reachable(db) && f < |db.fundings| && db.fundings[f].status == Pending
    requires after == Step(db, Webhook(db.fundings[f].reference, succeeded, throws)).db
    ensures FundedMinor(after, c) - FundedMinor(db, c)
            == if succeeded && db.fundings[f].campaign == c then db.fundings[f].amount else 0
    ensures RefundedMinor(after, c) == RefundedMinor(db, c) && AccruedMinor(after, c) == AccruedMinor(db, c)
  {
    assert DistinctFundings(db.fundings) by { ReachableKeeps(db); }
    EventLeaves(db, f, succeeded, throws, after);
    SumUpdate(db.fundings, f, db.fundings[f].(status := Verdict(succeeded)), FundingOf(c));
  }

  predicate AwaitsTopUp(db: Db, reference: PaymentReference)
  {
    exists t :: 0 <= t < |db.topUps| && db.topUps[t].reference == reference && db.topUps[t].status == Pending
  }

  /** Marking a top-up succeeded changes something exactly when one was waiting. */
  lemma TopUpMarkingShows(db: Db, reference: PaymentReference, throws: bool)
    requires DistinctTopUps(db.topUps)
    ensures MarkTopUp(db, reference, true, throws) != db <==> AwaitsTopUp(db, reference)
  {
    var found := FindTopUp(db.topUps, reference);
    if found.Some? && db.topUps[found.value].status == Pending {
      assert MarkTopUp(db, reference, true, throws).topUps[found.value] != db.topUps[found.value];
    }
  }

  /** An event throws exactly when it brings success to a payment or top-up waiting for it and the posting throws. */
  lemma EventThrowsExactly(db: Db, reference: PaymentReference, succeeded: bool, throws: bool)
    requires Reachable(db)
    ensures
      var outcome := Step(db, Webhook(reference, succeeded, throws)).outcome;
      outcome == if succeeded && throws && (AwaitsFunding(db, reference) || AwaitsTopUp(db, reference))
                 then Refused(Threw) else Done
  {
    assert DistinctFundings(db.fundings) && DistinctTopUps(db.topUps) by { ReachableKeeps(db); }
    MarkingShows(db, reference, throws);
    TopUpMarkingShows(MarkFunding(db, reference, true, throws), reference, throws);
  }

  /** A row of a table keeps its columns over any calls; only a pending payment's status may still change. */
  lemma PaymentKept(db: Db, f: nat, calls: seq<Call>, later: Db)
    requires Reachable(db) && f < |db.fundings| && later == RunFrom(db, calls)
    ensures f < |later.fundings| && later.fundings[f] == db.fundings[f].(status := later.fundings[f].status)
  {
    HistoryStands(db, calls);
    assert FundingEvolves(db.fundings[f], later.fundings[f]);
  }

  /**
    A checkout for an amount, any calls, and then its success event while it is still pending: the event pays the
    campaign exactly the amount asked for.
   */
  lemma CheckoutThenPaid(
    db: Db, c: nat, amount: int, feeBps: Bps, id: nat, calls: seq<Call>, waiting: Db, throws: bool, after: Db)
    requires Reachable(db) && Step(db, CreateFunding(c, amount, feeBps, id, false, false)).outcome == Done
    requires waiting == RunFrom(Step(db, CreateFunding(c, amount, feeBps, id, false, false)).db, calls)
    requires after == Step(waiting, Webhook(Checkout(id), true, throws)).db
    ensures |db.fundings| < |waiting.fundings|
    ensures waiting.fundings[|db.fundings|].status == Pending ==>
              TotalSucceededMinor(after, c) == TotalSucceededMinor(waiting, c) + amount
  {
    var create := CreateFunding(c, amount, feeBps, id, false, false);
    var created, f := Step(db, create).db, |db.fundings|;
    CheckoutStores(db, c, amount, feeBps, id, false, Step(db, create));
    ReachableStep(db, create);
    PaymentKept(created, f, calls, waiting);
    ReachableRun(created, calls);
    if waiting.fundings[f].status == Pending {
      EventPays(waiting, f, true, throws, after, c);
    }
  }
}
