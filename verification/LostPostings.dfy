/**
  The lines the ledger lacks because a posting threw after its row was written: each is of a positive amount,
  and none is on a creator's account, because accruals are rolled back and payouts post before their row.
 */
module LostPostings {
  import opened Outcomes
  import opened Sums
  import opened Money
  import opened Entitlement
  import opened LedgerTransactions
  import opened Ledger
  import opened EarningTable
  import opened Payments
  import opened PaymentsBooks
  import opened PaymentsInvariant
  import Settlement

  predicate LostLine(account: AccountKey, amount: int)
  {
    0 < amount && !(account.OwnerAccount? && account.ownerType == Creator)
  }

  predicate LinesLost(lines: seq<JournalLine>)
  {
    forall i :: 0 <= i < |lines| ==> LostLine(lines[i].account, lines[i].amount.amountMinor)
  }

  predicate PostingsLosable(postings: seq<Posting>)
  {
    forall i :: 0 <= i < |postings| ==> LostLine(KeyOf(postings[i].spec), postings[i].amount.amountMinor)
  }

  ghost predicate LostOk(db: Db)
  {
    LinesLost(db.unposted) && forall t :: 0 <= t < |db.topUps| ==> 0 < db.topUps[t].amount
  }

  lemma PostKeepsLost(db: Db, throws: bool, txType: TransactionType, reference: Reference, postings: seq<Posting>)
    requires LostOk(db) && PostingsLosable(postings)
    ensures LostOk(Post(db, throws, txType, reference, postings))
  {
    var lines := Journalled(txType, Some(reference), postings);
    forall i | 0 <= i < |lines| ensures LostLine(lines[i].account, lines[i].amount.amountMinor) {
      assert LostLine(KeyOf(postings[i].spec), postings[i].amount.amountMinor);
    }
  }

  lemma MarkFundingKeepsLost(db: Db, reference: PaymentReference, succeeded: bool, throws: bool)
    requires LostOk(db) && FundingsOk(db)
    ensures LostOk(MarkFunding(db, reference, succeeded, throws))
  {
    var found := FindFunding(db.fundings, reference);
    if found.Some? && db.fundings[found.value].status == Pending && succeeded {
      var f, row := found.value, db.fundings[found.value];
      assert FundingOk(db.campaigns, row);
      PostKeepsLost(db.(fundings := db.fundings[f := row.(status := Succeeded)]), throws, CampaignFunding,
                    RowReference(f), FundingPostings(row.organization, Money(row.amount, row.currency)));
    }
  }

  lemma MarkTopUpKeepsLost(db: Db, reference: PaymentReference, succeeded: bool, throws: bool)
    requires LostOk(db)
    ensures LostOk(MarkTopUp(db, reference, succeeded, throws))
  {
    var found := FindTopUp(db.topUps, reference);
    if found.Some? && db.topUps[found.value].status == Pending && succeeded {
      var t, row := found.value, db.topUps[found.value];
      PostKeepsLost(db.(topUps := db.topUps[t := row.(status := Succeeded)]), throws, WalletTopUp,
                    RowReference(t), TopUpPostings(row.organization, Money(row.amount, row.currency)));
    }
  }

  lemma WalletPaidKeepsLost(db: Db, row: Funding, throws: bool)
    requires LostOk(db) && 0 < row.amount
    ensures LostOk(WalletPaid(db, row, throws))
  {
    PostKeepsLost(AddFunding(db, row), throws, TransactionType.WalletFunding, RowReference(|db.fundings|),
                  WalletFundingPostings(row.organization, Money(row.amount, row.currency),
                                        Money(row.fee, row.currency)));
  }

  lemma RefundOneKeepsLost(db: Db, f: nat, amount: nat, toWallet: bool, outcome: GatewayOutcome)
    requires LostOk(db) && f < |db.fundings| && 0 < amount
    ensures LostOk(RefundOne(db, f, amount, toWallet, outcome))
  {
    if toWallet {
      PostKeepsLost(AddRefund(db, f, amount, Succeeded, None), outcome.PostingFails?, WalletReturn,
                    RowReference(|db.refunds|),
                    ReturnPostings(db.fundings[f].organization, Money(amount, db.fundings[f].currency)));
    }
  }

  lemma {:induction false} RefundDownKeepsLost(
    whole: RefundProgress, db: Db, c: nat, n: nat, remaining: int, refunded: int, count: nat, toWallet: bool,
    gateway: nat -> GatewayOutcome)
    requires n <= |db.fundings| && LostOk(db)
    requires whole == RefundDown(db, c, n, remaining, refunded, count, toWallet, gateway)
    ensures LostOk(whole.db)
    decreases n
  {
    if 0 < n && 0 < remaining {
      var f := n - 1;
      var amount, turn := RefundTurn(whole, db, c, f, remaining, refunded, count, toWallet, gateway);
      if 0 < amount {
        RefundOneKeepsLost(db, f, amount, toWallet, gateway(f));
      }
      if !turn.threw {
        RefundDownKeepsLost(whole, turn.db, c, f, turn.remaining, turn.refunded, turn.count, toWallet, gateway);
      }
    }
  }

  lemma RefundStepKeepsLost(db: Db, c: nat, gateway: nat -> GatewayOutcome)
    requires LostOk(db)
    ensures LostOk(RefundStep(db, c, gateway).db)
  {
    if c < |db.campaigns| {
      RefundDownKeepsLost(RefundRun(db, c, gateway), db, c, |db.fundings|, RefundableMinor(db, c), 0, 0,
                          db.campaigns[c].currency == WALLET_CURRENCY, gateway);
    }
  }

  lemma FundCampaignKeepsLost(db: Db, c: nat, amount: int, feeBps: Bps, id: nat, bypass: bool, throws: bool)
    requires Inv(db) && LostOk(db)
    ensures LostOk(CreateFundingStep(db, c, amount, feeBps, id, bypass, throws).db)
  {
    var reference := if bypass then Bypass(id) else Checkout(id);
    if 0 < amount && c < |db.campaigns| && FindFunding(db.fundings, reference).None? {
      FeeWithinBudget(amount, feeBps);
      var row := Funding(c, db.campaigns[c].organization, amount, FeeMinor(amount, feeBps), db.campaigns[c].currency,
                         Pending, reference);
      AddFundingKeepsRows(db, row);
      MarkFundingKeepsLost(AddFunding(db, row), reference, true, throws);
    }
  }

  lemma PayFromWalletKeepsLost(db: Db, c: nat, amount: int, feeBps: Bps, id: nat, throws: bool)
    requires LostOk(db)
    ensures LostOk(FundFromWalletStep(db, c, amount, feeBps, id, throws).db)
  {
    if 0 < amount && c < |db.campaigns| {
      FeeWithinBudget(amount, feeBps);
      WalletPaidKeepsLost(db, Funding(c, db.campaigns[c].organization, amount, FeeMinor(amount, feeBps),
                                      WALLET_CURRENCY, Succeeded, FromWallet(id)), throws);
    }
  }

  lemma TopUpKeepsLost(db: Db, organization: nat, amount: int, id: nat, bypass: bool, throws: bool)
    requires LostOk(db)
    ensures LostOk(CreateTopUpStep(db, organization, amount, id, bypass, throws).db)
  {
    var reference := if bypass then Bypass(id) else Checkout(id);
    if MIN_TOP_UP_MINOR <= amount {
      var row := TopUp(organization, amount, WALLET_CURRENCY, Pending, reference);
      MarkTopUpKeepsLost(db.(topUps := db.topUps + [row]), reference, true, throws);
    }
  }

  lemma WebhookKeepsLost(db: Db, reference: PaymentReference, succeeded: bool, throws: bool)
    requires Inv(db) && LostOk(db)
    ensures LostOk(WebhookStep(db, reference, succeeded, throws).db)
  {
    MarkFundingKeepsLost(db, reference, succeeded, throws);
    MarkTopUpKeepsLost(MarkFunding(db, reference, succeeded, throws), reference, succeeded, throws);
  }

  lemma CloseKeepsLost(db: Db, c: nat, readings: Readings, gateway: nat -> GatewayOutcome)
    requires LostOk(db)
    ensures LostOk(CloseStep(db, c, readings, gateway).db)
  {
    if c < |db.campaigns| {
      var closed := SetCampaign(db, c, db.campaigns[c].(status := Closed));
      RefundStepKeepsLost(SettleStep(closed, c, readings).db, c, gateway);
    }
  }

  lemma PaymentCallKeepsLost(db: Db, call: Call)
    requires Inv(db) && LostOk(db)
    requires call.CreateFunding? || call.FundFromWallet? || call.CreateTopUp? || call.Webhook?
    ensures LostOk(Step(db, call).db)
  {
    match call
    case CreateFunding(c, amount, feeBps, id, bypass, throws) =>
      FundCampaignKeepsLost(db, c, amount, feeBps, id, bypass, throws);
    case FundFromWallet(c, amount, feeBps, id, throws) => PayFromWalletKeepsLost(db, c, amount, feeBps, id, throws);
    case CreateTopUp(organization, amount, id, bypass, throws) =>
      TopUpKeepsLost(db, organization, amount, id, bypass, throws);
    case Webhook(reference, succeeded, throws) => WebhookKeepsLost(db, reference, succeeded, throws);
  }

  lemma OtherCallKeepsLost(db: Db, call: Call)
    requires !call.CreateFunding? && !call.FundFromWallet? && !call.CreateTopUp? && !call.Webhook?
    requires !call.Close? && !call.RefundUnspent?
    ensures Step(db, call).db.unposted == db.unposted && Step(db, call).db.topUps == db.topUps
  {
  }

  lemma StepKeepsLost(db: Db, call: Call)
    requires Inv(db) && LostOk(db)
    ensures LostOk(Step(db, call).db)
  {
    match call
    case Close(c, readings, gateway) => CloseKeepsLost(db, c, readings, gateway);
    case RefundUnspent(c, gateway) => RefundStepKeepsLost(db, c, gateway);
    case _ =>
      if call.CreateFunding? || call.FundFromWallet? || call.CreateTopUp? || call.Webhook? {
        PaymentCallKeepsLost(db, call);
      } else {
        OtherCallKeepsLost(db, call);
      }
  }
}
