/**
  What a posting leaves that throws after its row was written. The ledger then lacks exactly the lines of that
  posting, no later call makes up for them, and ledger and tables agree exactly when nothing was lost.
 */
module UnpostedRows {
  import opened Outcomes
  import opened Sums
  import opened Money
  import opened Entitlement
  import opened LedgerTransactions
  import opened Ledger
  import opened EarningTable
  import opened Payments
  import opened PaymentsBooks
  import opened PaymentsInvariant
  import opened LostPostings
  import opened PaymentsTheorems
  import opened RefundLoop
  import opened CampaignMoney
  import opened CallEffects
  import opened History
  import opened ClosedCampaigns
  import Settlement

  /** Ledger and tables agree on every side of every account. */
  ghost predicate LedgerIsTables(db: Db)
  {
    forall account, direction :: SideTotal(db.journal, account, direction) == TableSide(db, account, direction)
  }

  /** After any run, with postings that throw anywhere, the ledger lacks exactly the lines that were lost. */
  lemma LedgerLacksExactlyTheLost(db: Db, account: AccountKey, direction: Direction)
    requires Reachable(db)
    ensures TableSide(db, account, direction)
            == SideTotal(db.journal, account, direction) + SideTotal(db.unposted, account, direction)
    ensures 0 <= SideTotal(db.unposted, account, direction)
  {
    ReachableKeeps(db);
    assert BookedSide(db, account, direction) == TableSide(db, account, direction);
    ReachableLost(db);
    LostSideIsNotNegative(db.unposted, account, direction);
  }

  lemma LostSideIsNotNegative(lines: seq<JournalLine>, account: AccountKey, direction: Direction)
    requires LinesLost(lines)
    ensures forall i :: 0 <= i < |lines| ==> 0 <= SideWeight(account, direction)(lines[i])
    ensures 0 <= SideTotal(lines, account, direction)
  {
    forall i | 0 <= i < |lines| ensures 0 <= SideWeight(account, direction)(lines[i]) {
      assert LostLine(lines[i].account, lines[i].amount.amountMinor);
    }
    SumNonNegative(lines, SideWeight(account, direction));
  }

  /** They agree everywhere exactly when no line was lost: lost lines never cancel out. */
  lemma LedgerIsTablesUnlessLost(db: Db)
    requires Reachable(db)
    ensures LedgerIsTables(db) <==> db.unposted == []
  {
    ReachableKeeps(db);
    if db.unposted != [] {
      var line := db.unposted[0];
      ReachableLost(db);
      LostSideIsNotNegative(db.unposted, line.account, line.direction);
      SumCovers(db.unposted, 0, SideWeight(line.account, line.direction));
      assert LostLine(line.account, line.amount.amountMinor);
      assert BookedSide(db, line.account, line.direction) == TableSide(db, line.account, line.direction);
    } else {
      forall account, direction
        ensures SideTotal(db.journal, account, direction) == TableSide(db, account, direction)
      {
        assert BookedSide(db, account, direction) == TableSide(db, account, direction);
      }
    }
  }

  /** No later call makes up for a lost line. */
  lemma LostForGood(db: Db, calls: seq<Call>)
    requires Reachable(db) && db.unposted != []
    ensures !LedgerIsTables(RunFrom(db, calls))
  {
    HistoryStands(db, calls);
    ReachableRun(db, calls);
    LedgerIsTablesUnlessLost(RunFrom(db, calls));
  }

  // Call by call.

  /** A successful event whose posting throws, for a funding; delivered again it finds the row decided. */
  lemma UnpostedFundingIsMissing(db: Db, reference: PaymentReference, f: nat, after: Db, again: bool)
    requires Reachable(db) && FindFunding(db.fundings, reference) == Some(f) && f < |db.fundings|
    requires db.fundings[f].status == Pending && after == Step(db, Webhook(reference, true, true)).db
    ensures
      var row := db.fundings[f];
      && after.fundings == db.fundings[f := row.(status := Succeeded)] && after.journal == db.journal
      && after.unposted == db.unposted + Journalled(CampaignFunding, Some(RowReference(f)),
                                                    FundingPostings(row.organization, Money(row.amount, row.currency)))
      && !LedgerIsTables(after)
      && MarkFunding(after, reference, true, again) == after
  {
    var marked := db.fundings[f].(status := Succeeded);
    assert after.fundings[f] != db.fundings[f];
    ReachableStep(db, Webhook(reference, true, true));
    LedgerIsTablesUnlessLost(after);
    MarkedIsFound(db.fundings, reference, f, marked);
  }

  /** Changing a row's status does not change which row a reference finds. */
  lemma {:induction false} MarkedIsFound(fundings: seq<Funding>, reference: PaymentReference, f: nat, row: Funding)
    requires f < |fundings| && row.reference == fundings[f].reference
    requires FindFunding(fundings, reference) == Some(f)
    ensures FindFunding(fundings[f := row], reference) == Some(f)
  {
    var n := |fundings| - 1;
    if f < n {
      assert fundings[f := row][..n] == fundings[..n][f := row];
      MarkedIsFound(fundings[..n], reference, f, row);
    }
  }

  lemma {:induction false} MarkedTopUpIsFound(topUps: seq<TopUp>, reference: PaymentReference, t: nat, row: TopUp)
    requires t < |topUps| && row.reference == topUps[t].reference
    requires FindTopUp(topUps, reference) == Some(t)
    ensures FindTopUp(topUps[t := row], reference) == Some(t)
  {
    var n := |topUps| - 1;
    if t < n {
      assert topUps[t := row][..n] == topUps[..n][t := row];
      MarkedTopUpIsFound(topUps[..n], reference, t, row);
    }
  }

  /** The same for a top-up that the event reaches. */
  lemma UnpostedTopUpIsMissing(db: Db, reference: PaymentReference, t: nat, after: Db, again: bool)
    requires Reachable(db) && FindTopUp(db.topUps, reference) == Some(t) && t < |db.topUps|
    requires db.topUps[t].status == Pending && !AwaitsFunding(db, reference)
    requires after == Step(db, Webhook(reference, true, true)).db
    ensures
      var row := db.topUps[t];
      && after.topUps == db.topUps[t := row.(status := Succeeded)] && after.journal == db.journal
      && after.unposted == db.unposted + Journalled(WalletTopUp, Some(RowReference(t)),
                                                    TopUpPostings(row.organization, Money(row.amount, row.currency)))
      && !LedgerIsTables(after)
      && MarkTopUp(after, reference, true, again) == after
  {
    assert DistinctFundings(db.fundings) by { ReachableKeeps(db); }
    EventReachesTopUp(db, reference, t);
    assert !LedgerIsTables(after) by {
      ReachableStep(db, Webhook(reference, true, true));
      LedgerIsTablesUnlessLost(after);
    }
    MarkedTopUpIsFound(db.topUps, reference, t, db.topUps[t].(status := Succeeded));
  }

  lemma EventReachesTopUp(db: Db, reference: PaymentReference, t: nat)
    requires DistinctFundings(db.fundings) && !AwaitsFunding(db, reference)
    requires FindTopUp(db.topUps, reference) == Some(t) && t < |db.topUps| && db.topUps[t].status == Pending
    ensures Step(db, Webhook(reference, true, true)).db == TopUpSucceeded(db, t, true)
  {
    MarkingShows(db, reference, true);
  }

  /**
    A wallet payment that would go through: when its posting throws, the campaign counts as funded while the
    wallet still holds the money. It keeps ledger and tables in agreement exactly when its posting goes through.
   */
  lemma UnpostedWalletPaymentIsMissing(
    db: Db, c: nat, amount: int, feeBps: Bps, id: nat, throws: bool, after: Db)
    requires Reachable(db) && Step(db, FundFromWallet(c, amount, feeBps, id, false)).outcome == Done
    requires after == Step(db, FundFromWallet(c, amount, feeBps, id, throws)).db
    ensures |after.fundings| == |db.fundings| + 1
    ensures
      var row := after.fundings[|db.fundings|];
      && FundedMinor(after, c) == FundedMinor(db, c) + amount
      && after.unposted == db.unposted
           + (if throws then Journalled(TransactionType.WalletFunding, Some(RowReference(|db.fundings|)),
                                        FundingRowPostings(row))
              else [])
      && (throws ==> after.journal == db.journal)
      && (LedgerIsTables(after) <==> db.unposted == [] && !throws)
  {
    var row := WalletPayment(db, c, amount, feeBps, id, throws, after);
    assert LedgerIsTables(after) <==> after.unposted == [] by {
      ReachableStep(db, FundFromWallet(c, amount, feeBps, id, throws));
      LedgerIsTablesUnlessLost(after);
    }
    SumAppend(db.fundings, row, FundingOf(c));
  }

  lemma WalletPayment(
    db: Db, c: nat, amount: int, feeBps: Bps, id: nat, throws: bool, after: Db) returns (row: Funding)
    requires Step(db, FundFromWallet(c, amount, feeBps, id, false)).outcome == Done
    requires after == Step(db, FundFromWallet(c, amount, feeBps, id, throws)).db
    ensures after == WalletPaid(db, row, throws) && row.campaign == c && row.amount == amount
    ensures row.status == Succeeded && row.reference.FromWallet?
    ensures Step(db, FundFromWallet(c, amount, feeBps, id, throws)).outcome == if throws then Refused(Threw) else Done
  {
    FeeWithinBudget(amount, feeBps);
    row := Funding(c, db.campaigns[c].organization, amount, FeeMinor(amount, feeBps), WALLET_CURRENCY, Succeeded,
                   FromWallet(id));
  }

  /** What the ledger lacks more than before is the posting of the last refund row, which counts as refunded. */
  predicate LastReturnLost(db: Db, after: Db, amount: nat)
  {
    && 0 < |after.refunds|
    && var id := |after.refunds| - 1;
       && after.refunds[id].amount == amount && after.refunds[id].status == Succeeded
       && after.unposted
          == db.unposted + Journalled(WalletReturn, Some(RowReference(id)), RefundRowPostings(after.refunds[id]))
  }

  /** The loop loses the posting of a return that throws, and no other. */
  lemma {:induction false} LoopLoses(
    whole: RefundProgress, db: Db, c: nat, n: nat, remaining: int, refunded: int, count: nat, toWallet: bool,
    gateway: nat -> GatewayOutcome)
    requires n <= |db.fundings|
    requires whole == RefundDown(db, c, n, remaining, refunded, count, toWallet, gateway)
    ensures !toWallet || whole.stuck == 0 ==> whole.db.unposted == db.unposted
    ensures toWallet && 0 < whole.stuck ==> LastReturnLost(db, whole.db, whole.stuck)
    decreases n
  {
    if 0 < n && 0 < remaining {
      var f := n - 1;
      var amount, turn := RefundTurn(whole, db, c, f, remaining, refunded, count, toWallet, gateway);
      if !turn.threw {
        LoopLoses(whole, turn.db, c, f, turn.remaining, turn.refunded, turn.count, toWallet, gateway);
      }
    }
  }

  lemma ReturnLoses(db: Db, c: nat, gateway: nat -> GatewayOutcome, run: RefundProgress)
    requires Inv(db) && c < |db.campaigns| && ToWallet(db, c) && run == RefundRun(db, c, gateway)
    ensures RefundedMinor(run.db, c) == RefundedMinor(db, c) + run.refunded + run.stuck
    ensures run.stuck == 0 ==> run.db.unposted == db.unposted
    ensures 0 < run.stuck ==> LastReturnLost(db, run.db, run.stuck) && run.db.unposted != []
  {
    LoopLoses(run, db, c, |db.fundings|, RefundableMinor(db, c), 0, 0, true, gateway);
    RefundDownEffect(run, db, c, |db.fundings|, RefundableMinor(db, c), 0, 0, true, gateway);
  }

  /**
    A refund to the wallet keeps ledger and tables in agreement exactly when no posting of it throws. What it
    lost is the posting of its last row, which counts as refunded.
   */
  lemma UnpostedReturnIsMissing(db: Db, c: nat, gateway: nat -> GatewayOutcome, run: RefundProgress)
    requires Reachable(db) && c < |db.campaigns| && ToWallet(db, c) && db.campaigns[c].status != Published
    requires 0 < RefundableMinor(db, c) && run == RefundRun(db, c, gateway)
    ensures RefundStep(db, c, gateway) == Response(run.db, if run.threw then Refused(Threw) else Done)
    ensures RefundedMinor(run.db, c) == RefundedMinor(db, c) + run.refunded + run.stuck
    ensures 0 < run.stuck ==> LastReturnLost(db, run.db, run.stuck)
    ensures LedgerIsTables(run.db) <==> db.unposted == [] && run.stuck == 0
  {
    ReturnLoses(db, c, gateway, run) by { ReachableKeeps(db); }
    assert LedgerIsTables(run.db) <==> run.db.unposted == [] by {
      ReachableStep(db, RefundUnspent(c, gateway));
      LedgerIsTablesUnlessLost(run.db);
    }
  }

  // That these happen.

  /** A brand with a draft of 40 dollars and 100 dollars in its wallet. */
  lemma FilledWallet() returns (db: Db)
    ensures Reachable(db) && db.unposted == []
    ensures db.campaigns == [Campaign(7, "USD", 4_000, Terms(PerView, 1, None), Draft)] && db.fundings == []
    ensures Balance(db.journal, Wallet(7, WALLET_CURRENCY)) == 10_000
  {
    var create := CreateCampaign(7, "USD", 4_000, Terms(PerView, 1, None));
    var topUp := CreateTopUp(7, 10_000, 1, true, false);
    var drafted := Step(EmptyDb, create).db;
    db := Step(drafted, topUp).db;
    assert EmptyDb == Run([]);
    ReachableStep(EmptyDb, create);
    ReachableStep(drafted, topUp);
    assert db.topUps == [] + [TopUp(7, 10_000, WALLET_CURRENCY, Succeeded, Bypass(1))];
    SumAppend([], TopUp(7, 10_000, WALLET_CURRENCY, Succeeded, Bypass(1)), ToppedUp(7, WALLET_CURRENCY));
    WalletLedgerAgrees(db, 7, WALLET_CURRENCY);
  }

  /** Paying 40 of them can leave the ledger short. */
  lemma WalletPaymentCanGoUnposted() returns (db: Db, call: Call)
    ensures Reachable(db) && LedgerIsTables(db) && call == FundFromWallet(0, 4_000, 0, 2, true)
    ensures FundFromWalletStep(db, 0, 4_000, 0, 2, false).outcome == Done
    ensures Step(db, call).outcome == Refused(Threw) && !LedgerIsTables(Step(db, call).db)
  {
    db := FilledWallet();
    call := FundFromWallet(0, 4_000, 0, 2, true);
    LedgerIsTablesUnlessLost(db);
    NoFeeOnNothing(4_000);
    WalletCovers(db);
    var row := WalletPayment(db, 0, 4_000, 0, 2, true, Step(db, call).db);
    UnpostedWalletPaymentIsMissing(db, 0, 4_000, 0, 2, true, Step(db, call).db);
  }

  lemma WalletCovers(db: Db)
    requires db.campaigns == [Campaign(7, "USD", 4_000, Terms(PerView, 1, None), Draft)] && db.fundings == []
    requires Balance(db.journal, Wallet(7, WALLET_CURRENCY)) == 10_000
    ensures Step(db, FundFromWallet(0, 4_000, 0, 2, false)).outcome == Done
    ensures FundFromWalletStep(db, 0, 4_000, 0, 2, false).outcome == Done
  {
    NoFeeOnNothing(4_000);
  }

  /** What the only funding of a draft gives back, its posting having thrown. */
  lemma OnlyReturnIsStuck(db: Db, gateway: nat -> GatewayOutcome, run: RefundProgress)
    requires Inv(db) && |db.campaigns| == 1 && ToWallet(db, 0) && db.refunds == [] && db.earnings == map[]
    requires db.fundings == [Funding(0, 7, 100, 0, "USD", Succeeded, Bypass(1))]
    requires gateway(0).PostingFails? && run == RefundRun(db, 0, gateway)
    ensures RefundableMinor(db, 0) == 100 && run.threw && run.stuck == 100
  {
    var same := WholeRefund(db, 0, gateway);
    assert CampaignAccrued(map[], 0) == 0;
    assert LeftOn(db.fundings, db.refunds, 0, 0) == 100;
    assert BlocksFirst(db, 0, 1, 100, true, gateway, 0);
  }

  /** The unspent budget of a funded draft goes back to the wallet, and the posting throws. */
  lemma ReturnCanGoUnposted() returns (db: Db, gateway: nat -> GatewayOutcome)
    ensures Reachable(db) && LedgerIsTables(db)
    ensures RefundStep(db, 0, gateway).outcome == Refused(Threw) && !LedgerIsTables(RefundStep(db, 0, gateway).db)
  {
    db := FundedDraft(Terms(PerView, 1, None));
    gateway := (f: nat) => PostingFails;
    var run := RefundRun(db, 0, gateway);
    LedgerIsTablesUnlessLost(db);
    OnlyReturnIsStuck(db, gateway, run) by { ReachableKeeps(db); }
    UnpostedReturnIsMissing(db, 0, gateway, run);
  }
}
