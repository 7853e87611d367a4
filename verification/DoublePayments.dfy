/**
  Money that leaves twice. A refund or payout whose posting throws after the gateway sent the money is not
  recorded, so the next call sends it again, exactly by the amount that went unrecorded.
 */
module DoublePayments {
  import opened Outcomes
  import opened Sums
  import opened Money
  import opened Entitlement
  import opened LedgerTransactions
  import opened Ledger
  import opened EarningTable
  import opened Payments
  import opened PaymentsBooks
  import opened PaymentsInvariant
  import opened PaymentsTheorems
  import opened RefundLoop
  import opened Transfers
  import opened CampaignMoney
  import opened CallEffects
  import opened ClosedCampaigns
  import Settlement

  // Refunds.

  /** The first turn of the call that throws is at this funding, and it is the posting that throws. */
  ghost predicate PostingFailsAt(db: Db, c: nat, gateway: nat -> GatewayOutcome, f: nat)
    requires c < |db.campaigns|
  {
    && BlocksFirst(db, c, |db.fundings|, RefundableMinor(db, c), ToWallet(db, c), gateway, f)
    && gateway(f).PostingFails?
  }

  /**
    A card refund's gateway sends what the rows then say was refunded, exactly unless a posting fails; then it
    has sent that turn's amount besides.
   */
  lemma GatewaySendsWhatIsRefunded(db: Db, c: nat, gateway: nat -> GatewayOutcome, run: RefundProgress)
    requires Reachable(db) && c < |db.campaigns| && !ToWallet(db, c) && run == RefundRun(db, c, gateway)
    ensures SentBackMinor(run.db, c) - SentBackMinor(db, c)
            == RefundedMinor(run.db, c) - RefundedMinor(db, c) + run.stuck
    ensures run.stuck == 0 <==> forall f: nat :: !PostingFailsAt(db, c, gateway, f)
    ensures forall f: nat :: PostingFailsAt(db, c, gateway, f) ==>
                               run.stuck == AmountAt(db, c, |db.fundings|, RefundableMinor(db, c), f)
  {
    ReachableKeeps(db);
    var same := WholeRefund(db, c, gateway);
    LoopSends(run, db, c, |db.fundings|, RefundableMinor(db, c), 0, 0, false, gateway);
    if 0 < run.stuck {
      var f := SomethingBlocksFirst(db, c, |db.fundings|, RefundableMinor(db, c), false, gateway, |db.fundings|);
      assert PostingFailsAt(db, c, gateway, f);
    }
  }

  lemma CompleteRefund(db: Db, c: nat, gateway: nat -> GatewayOutcome, after: Db)
    requires Inv(db) && c < |db.campaigns| && !ToWallet(db, c) && db.campaigns[c].status != Published
    requires 0 < RefundableMinor(db, c) && forall f: nat :: gateway(f).Refunded?
    requires after == RefundStep(db, c, gateway).db
    ensures RefundStep(db, c, gateway).outcome == Done
    ensures SentBackMinor(after, c) == SentBackMinor(db, c) + RefundableMinor(db, c)
    ensures RefundedMinor(after, c) == RefundedMinor(db, c) + RefundableMinor(db, c)
  {
    var run := WholeRefund(db, c, gateway);
    LoopSends(run, db, c, |db.fundings|, RefundableMinor(db, c), 0, 0, false, gateway);
    LeftIsNotNegative(db.fundings, db.refunds, c, 0, |db.fundings|);
  }

  /** What the call whose posting failed leaves: its last turn is sent and still refundable. */
  lemma AfterFailedPosting(db: Db, c: nat, gateway: nat -> GatewayOutcome, run: RefundProgress)
    requires Inv(db) && c < |db.campaigns| && !ToWallet(db, c) && db.campaigns[c].status != Published
    requires run == RefundRun(db, c, gateway) && 0 < run.stuck
    ensures 0 < RefundableMinor(db, c) && RefundStep(db, c, gateway) == Response(run.db, Refused(Threw))
    ensures Inv(run.db) && run.db.campaigns == db.campaigns
    ensures 0 < RefundableMinor(run.db, c) == RefundableMinor(db, c) - run.refunded
    ensures RefundedMinor(run.db, c) == RefundedMinor(db, c) + run.refunded
    ensures SentBackMinor(run.db, c) == SentBackMinor(db, c) + run.refunded + run.stuck
  {
    var same := WholeRefund(db, c, gateway);
    LoopSends(run, db, c, |db.fundings|, RefundableMinor(db, c), 0, 0, false, gateway);
    assert Inv(run.db) by { RefundStepKeeps(db, c, gateway); }
    var f := SomethingBlocksFirst(db, c, |db.fundings|, RefundableMinor(db, c), false, gateway, |db.fundings|);
  }

  /** After a refund whose posting failed, a refund that goes through sends the unrecorded amount a second time. */
  lemma UnpostedRefundIsSentAgain(
    db: Db, c: nat, first: nat -> GatewayOutcome, second: nat -> GatewayOutcome, run: RefundProgress, after: Db)
    requires Reachable(db) && c < |db.campaigns| && !ToWallet(db, c) && db.campaigns[c].status != Published
    requires run == RefundRun(db, c, first) && 0 < run.stuck
    requires forall f: nat :: second(f).Refunded?
    requires after == RefundStep(run.db, c, second).db
    ensures RefundStep(db, c, first) == Response(run.db, Refused(Threw))
    ensures RefundStep(run.db, c, second).outcome == Done
    ensures RefundedMinor(after, c) == RefundedMinor(db, c) + RefundableMinor(db, c)
    ensures SentBackMinor(after, c) == SentBackMinor(db, c) + RefundableMinor(db, c) + run.stuck
  {
    assert Inv(db) by { ReachableKeeps(db); }
    AfterFailedPosting(db, c, first, run);
    CompleteRefund(run.db, c, second, after);
  }

  /** A draft of 100 euros, paid in full by card. */
  lemma EuroDraft() returns (db: Db)
    ensures Reachable(db) && db.campaigns == [Campaign(7, "EUR", 100, Terms(PerView, 1, None), Draft)]
    ensures db.fundings == [Funding(0, 7, 100, 0, "EUR", Succeeded, Bypass(1))]
    ensures db.refunds == [] && db.earnings == map[] && db.sent == []
  {
    var create := CreateCampaign(7, "EUR", 100, Terms(PerView, 1, None));
    var pay := CreateFunding(0, 100, 0, 1, true, false);
    var drafted := EmptyDb.(campaigns := [Campaign(7, "EUR", 100, Terms(PerView, 1, None), Draft)]);
    assert EmptyDb == Run([]);
    ReachableStep(EmptyDb, create);
    assert Step(EmptyDb, create).db == drafted;
    ReachableStep(drafted, pay);
    BypassSettlesAtOnce(drafted, 0, 100, 0, 1);
    db := Step(drafted, pay).db;
    NoFeeOnNothing(100);
  }

  lemma DraftIsWholeRefundable(db: Db)
    requires Reachable(db) && |db.campaigns| == 1 && db.refunds == [] && db.earnings == map[]
    requires db.fundings == [Funding(0, 7, 100, 0, "EUR", Succeeded, Bypass(1))]
    ensures FundedMinor(db, 0) == 100 && RefundableMinor(db, 0) == 100 && RefundedMinor(db, 0) == 0
    ensures LeftOn(db.fundings, db.refunds, 0, 0) == 100 && LeftBelow(db.fundings, db.refunds, 0, 1) == 100
  {
    SumAppend([], db.fundings[0], FundingOf(0));
    assert [] + [db.fundings[0]] == db.fundings;
    assert CampaignAccrued(map[], 0) == 0;
  }

  lemma FirstRefundIsStuck(db: Db, gateway: nat -> GatewayOutcome, run: RefundProgress)
    requires Reachable(db) && |db.campaigns| == 1 && !ToWallet(db, 0) && |db.fundings| == 1
    requires gateway(0).PostingFails? && run == RefundRun(db, 0, gateway)
    requires RefundableMinor(db, 0) == 100 && LeftOn(db.fundings, db.refunds, 0, 0) == 100
    ensures run.stuck == 100
  {
    GatewaySendsWhatIsRefunded(db, 0, gateway, run);
    assert BlocksFirst(db, 0, 1, 100, false, gateway, 0);
    assert PostingFailsAt(db, 0, gateway, 0);
  }

  /** A draft whose refund is stuck and then goes through sends the money twice. */
  lemma DraftIsRepaidTwice(draft: Db, first: nat -> GatewayOutcome, second: nat -> GatewayOutcome, after: Db)
    requires Reachable(draft) && |draft.campaigns| == 1 && !ToWallet(draft, 0)
    requires draft.campaigns[0].status == Draft && draft.refunds == [] && draft.earnings == map[] && draft.sent == []
    requires draft.fundings == [Funding(0, 7, 100, 0, "EUR", Succeeded, Bypass(1))]
    requires first(0).PostingFails? && forall f: nat :: second(f).Refunded?
    requires after == RefundStep(RefundRun(draft, 0, first).db, 0, second).db
    ensures RefundStep(draft, 0, first).db == RefundRun(draft, 0, first).db
    ensures RefundedMinor(after, 0) == 100 && SentBackMinor(after, 0) == 200
  {
    var run := RefundRun(draft, 0, first);
    DraftIsWholeRefundable(draft);
    FirstRefundIsStuck(draft, first, run);
    UnpostedRefundIsSentAgain(draft, 0, first, second, run, after);
  }

  /** Its card is repaid 200: once without a record, and once more. */
  lemma CardCanBeRepaidTwice() returns (db: Db)
    ensures Reachable(db) && |db.campaigns| == 1
    ensures FundedMinor(db, 0) == 100 && RefundedMinor(db, 0) == 100 && SentBackMinor(db, 0) == 200
  {
    var draft := EuroDraft();
    var first, second := (f: nat) => PostingFails, (f: nat) => Refunded(9);
    db := RefundStep(RefundStep(draft, 0, first).db, 0, second).db;
    DraftIsWholeRefundable(draft);
    DraftIsRepaidTwice(draft, first, second, db);
    RefundedTwice(draft, first, second, db);
  }

  lemma RefundedTwice(db: Db, first: nat -> GatewayOutcome, second: nat -> GatewayOutcome, after: Db)
    requires Reachable(db) && |db.campaigns| == 1
    requires after == RefundStep(RefundStep(db, 0, first).db, 0, second).db
    ensures Reachable(after) && SameButRefunds(db, after)
  {
    RefundsTouchOnlyRefunds(db, first);
    RefundsTouchOnlyRefunds(RefundStep(db, 0, first).db, second);
    ReachableStep(db, RefundUnspent(0, first));
    ReachableStep(RefundStep(db, 0, first).db, RefundUnspent(0, second));
  }

  lemma RefundsTouchOnlyRefunds(db: Db, gateway: nat -> GatewayOutcome)
    requires |db.campaigns| == 1
    ensures SameButRefunds(db, RefundStep(db, 0, gateway).db)
  {
    RefundDownEffect(RefundRun(db, 0, gateway), db, 0, |db.fundings|, RefundableMinor(db, 0), 0, 0, ToWallet(db, 0),
                     gateway);
  }

  // Payouts.

  /** A payout whose posting threw leaves the request open, and approving it again pays it a second time. */
  lemma UnpostedPayoutIsSentAgain(db: Db, w: nat, middle: Db, after: Db)
    requires w < |db.withdrawals| && db.withdrawals[w].status == Requested && db.withdrawals[w].destination.Some?
    requires middle == Step(db, ApproveWithdrawal(w, PayoutUnposted)).db
    requires after == Step(middle, ApproveWithdrawal(w, PayoutPosted)).db
    ensures Step(db, ApproveWithdrawal(w, PayoutUnposted)).outcome == Refused(Threw)
    ensures Step(middle, ApproveWithdrawal(w, PayoutPosted)).outcome == Done
    ensures w < |after.withdrawals| && PaidMinor(after.withdrawals, w) == db.withdrawals[w].amount
    ensures after.journal == Step(db, ApproveWithdrawal(w, PayoutPosted)).db.journal
    ensures Sum(after.sent, SentFor(w)) == Sum(db.sent, SentFor(w)) + 2 * db.withdrawals[w].amount
  {
    var amount := db.withdrawals[w].amount;
    SumAppend(db.sent, Payout(w, amount, false), SentFor(w));
    SumAppend(middle.sent, Payout(w, amount, true), SentFor(w));
  }

  lemma GrantedRequest(settled: Db) returns (db: Db)
    requires Reachable(settled) && settled.withdrawals == [] && settled.sent == []
    requires SumAccrued(settled.earnings, OfCreator(1, "USD")) == 10
    ensures Reachable(db) && db.withdrawals == [WithdrawalRow(1, 10, "USD", Requested, Some(5))] && db.sent == []
  {
    CreatorLedgerAgrees(settled, 1, "USD");
    assert AvailableMinor(settled, 1, "USD") == 10;
    db := RequestStep(settled, 1, 10, "USD", Some(5)).db;
    ReachableStep(settled, RequestWithdrawal(1, 10, "USD", Some(5)));
  }

  /** One creator earns 10 and asks for it. */
  lemma AskedFor() returns (db: Db)
    ensures Reachable(db) && db.withdrawals == [WithdrawalRow(1, 10, "USD", Requested, Some(5))] && db.sent == []
  {
    var published := PublishedCampaign();
    var settle := Settle(0, Readings([1], map[], {}, None));
    var settled := Step(published, settle).db;
    ReachableStep(published, settle);
    OneCreatorEarns(published, settled);
    db := GrantedRequest(settled);
  }

  lemma OneCreditedPass(pass: Settlement.Pass, key: EarningKey)
    requires pass.campaign == key.campaign && pass.creatorIds == [key.creator] && key.creator !in pass.paused
    requires pass.entitled(key.creator) == 10
    ensures Settlement.Settle(pass, map[], 100, None).rows == map[key := Earning(10, pass.currency)]
  {
    assert Settlement.SettleUpTo(pass, map[], 100, None, 0) == Settlement.Start(map[], 100);
    assert Settlement.CreditMinor(pass, key.creator, 0, 100) == 10;
  }

  lemma OneCreatorEarns(db: Db, settled: Db)
    requires db.earnings == map[] && TotalSucceededMinor(db, 0) == 100
    requires db.withdrawals == [] && db.sent == []
    requires db.campaigns == [Campaign(7, "USD", 100, Terms(FixedPerItem, 10, None), Published)]
    requires settled == SettleStep(db, 0, Readings([1], map[], {}, None)).db
    ensures SumAccrued(settled.earnings, OfCreator(1, "USD")) == 10 && settled.withdrawals == [] && settled.sent == []
  {
    var pass := PassFor(db, 0, Readings([1], map[], {}, None));
    var key := EarningKey(0, 1);
    assert CampaignAccrued(map[], 0) == 0;
    OneCreditedPass(pass, key);
    WriteMovesSums(map[], key, Earning(10, "USD"), OfCreator(1, "USD"));
  }

  /** A reachable payout made twice. */
  lemma WithdrawalCanBePaidTwice() returns (db: Db)
    ensures Reachable(db) && |db.withdrawals| == 1 && db.withdrawals[0].amount == 10
    ensures PaidMinor(db.withdrawals, 0) == 10 && Sum(db.sent, SentFor(0)) == 20
  {
    var asked := AskedFor();
    var middle := Step(asked, ApproveWithdrawal(0, PayoutUnposted)).db;
    db := Step(middle, ApproveWithdrawal(0, PayoutPosted)).db;
    ReachableStep(asked, ApproveWithdrawal(0, PayoutUnposted));
    ReachableStep(middle, ApproveWithdrawal(0, PayoutPosted));
    UnpostedPayoutIsSentAgain(asked, 0, middle, db);
  }
}
