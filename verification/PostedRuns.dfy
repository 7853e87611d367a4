/** Every run of calls keeps what `PostedLines` says of the ledger, and what follows for references. */
module PostedRuns {
  import opened Outcomes
  import opened Sums
  import opened Money
  import opened Entitlement
  import opened LedgerTransactions
  import opened Ledger
  import opened EarningTable
  import opened Payments
  import opened PaymentsInvariant
  import opened PaymentsTheorems
  import opened CallEffects
  import opened History
  import opened PostedLines
  import Settlement

  // Settlement.

  lemma {:induction false} EarningLinesExplained(db: Db, c: nat, credits: seq<Settlement.Credit>, i: nat)
    requires c < |db.campaigns| && (credits != [] ==> db.campaigns[c].status != Draft)
    requires forall j :: 0 <= j < |credits| ==> 0 < credits[j].amount
    requires i < |EarningLines(db.campaigns[c], c, credits)|
    ensures
      var line := EarningLines(db.campaigns[c], c, credits)[i];
      Explained(db, line) && line.txType == EarningAccrual && line.reference.value.EarningReference?
    decreases |credits|
  {
    var n := |credits| - 1;
    if i < |EarningLines(db.campaigns[c], c, credits[..n])| {
      EarningLinesExplained(db, c, credits[..n], i);
    }
  }

  lemma CreditJoins(journal: seq<JournalLine>, campaign: Campaign, c: nat, credit: Settlement.Credit, key: EarningKey)
    ensures Sum(journal + CreditLines(campaign, c, credit), CreditedTo(key))
            == Sum(journal, CreditedTo(key)) + if key == EarningKey(c, credit.creator) then credit.amount else 0
  {
    var lines := CreditLines(campaign, c, credit);
    SumConcat(journal, lines, CreditedTo(key));
    SumOfPair(lines, CreditedTo(key));
  }

  lemma TwoLinesCountUp(journal: seq<JournalLine>, debit: JournalLine, credit: JournalLine, total: int, key: EarningKey)
    requires CountsUp(journal) && IsCredit(credit)
    requires debit.txType == EarningAccrual && debit.direction == Debit
    requires debit.reference == credit.reference == Some(EarningReference(key.campaign, key.creator, total))
    requires debit.amount == credit.amount
    requires total == Sum(journal + [debit, credit], CreditedTo(key))
    ensures CountsUp(journal + [debit, credit])
  {
    var longer, n := journal + [debit, credit], |journal|;
    OldCountStands(journal, [debit, credit]);
    assert longer[..n + 2] == longer;
    assert longer[n] == debit && longer[n + 1] == credit;
    assert CountsUpAt(longer, n + 1);
  }

  lemma CreditCountsUp(journal: seq<JournalLine>, campaign: Campaign, c: nat, credit: Settlement.Credit)
    requires CountsUp(journal)
    requires credit.total == Sum(journal, CreditedTo(EarningKey(c, credit.creator))) + credit.amount
    ensures CountsUp(journal + CreditLines(campaign, c, credit))
  {
    var lines, key := CreditLines(campaign, c, credit), EarningKey(c, credit.creator);
    CreditJoins(journal, campaign, c, credit, key);
    assert lines == [lines[0], lines[1]];
    TwoLinesCountUp(journal, lines[0], lines[1], credit.total, key);
  }

  /** Each credit goes to another creator and leads from the count so far to its total. */
  ghost predicate LeadOn(journal: seq<JournalLine>, c: nat, credits: seq<Settlement.Credit>)
  {
    && (forall i, j :: 0 <= i < j < |credits| ==> credits[i].creator != credits[j].creator)
    && forall i :: 0 <= i < |credits| ==>
         credits[i].total == Sum(journal, CreditedTo(EarningKey(c, credits[i].creator))) + credits[i].amount
  }

  /** Where the count stands once these credits are posted. */
  ghost predicate LedTo(
    journal: seq<JournalLine>, after: seq<JournalLine>, c: nat, credits: seq<Settlement.Credit>)
  {
    && (forall i :: 0 <= i < |credits| ==>
          Sum(after, CreditedTo(EarningKey(c, credits[i].creator))) == credits[i].total)
    && forall key: EarningKey :: key.campaign != c || Settlement.Uncredited(credits, key.creator) ==>
         Sum(after, CreditedTo(key)) == Sum(journal, CreditedTo(key))
  }

  lemma OneMoreLedTo(journal: seq<JournalLine>, before: seq<JournalLine>, campaign: Campaign, c: nat,
      credits: seq<Settlement.Credit>)
    requires credits != [] && LeadOn(journal, c, credits) && LedTo(journal, before, c, credits[..|credits| - 1])
    requires CountsUp(before)
    ensures
      var after := before + CreditLines(campaign, c, credits[|credits| - 1]);
      CountsUp(after) && LedTo(journal, after, c, credits)
  {
    var n := |credits| - 1;
    var after := before + CreditLines(campaign, c, credits[n]);
    assert Settlement.Uncredited(credits[..n], credits[n].creator);
    CreditCountsUp(before, campaign, c, credits[n]);
    forall i | 0 <= i < |credits|
      ensures Sum(after, CreditedTo(EarningKey(c, credits[i].creator))) == credits[i].total
    {
      CreditJoins(before, campaign, c, credits[n], EarningKey(c, credits[i].creator));
      assert i < n ==> credits[..n][i] == credits[i];
    }
    forall key: EarningKey | key.campaign != c || Settlement.Uncredited(credits, key.creator)
      ensures Sum(after, CreditedTo(key)) == Sum(journal, CreditedTo(key))
    {
      CreditJoins(before, campaign, c, credits[n], key);
      assert key.campaign == c ==> Settlement.Uncredited(credits[..n], key.creator);
    }
  }

  lemma {:induction false} CreditsCountUp(
    journal: seq<JournalLine>, campaign: Campaign, c: nat, credits: seq<Settlement.Credit>, after: seq<JournalLine>)
    requires CountsUp(journal) && LeadOn(journal, c, credits)
    requires after == journal + EarningLines(campaign, c, credits)
    ensures CountsUp(after) && LedTo(journal, after, c, credits)
  {
    if credits == [] {
      assert after == journal;
    } else {
      var n := |credits| - 1;
      var before := journal + EarningLines(campaign, c, credits[..n]);
      CreditsCountUp(journal, campaign, c, credits[..n], before);
      assert after == before + CreditLines(campaign, c, credits[n]);
      OneMoreLedTo(journal, before, campaign, c, credits);
    }
  }

  lemma PassKeepsCount(db: Db, c: nat, pass: Settlement.Pass, progress: Settlement.Progress)
    requires Counted(db) && c < |db.campaigns| && pass.campaign == c
    requires Settlement.TrueCredits(pass, db.earnings, progress)
    requires forall key: EarningKey :: key.campaign != c ==> RowAt(progress.rows, key) == RowAt(db.earnings, key)
    ensures Counted(Credited(db, c, progress.rows, progress.credits))
  {
    var credits := progress.credits;
    var after := db.journal + EarningLines(db.campaigns[c], c, credits);
    assert LeadOn(db.journal, c, credits) by {
      forall i | 0 <= i < |credits|
        ensures credits[i].total
            == Sum(db.journal, CreditedTo(EarningKey(c, credits[i].creator))) + credits[i].amount
      {
        assert Settlement.CreditIsTrue(pass, db.earnings, progress.rows, credits[i]);
        assert Sum(db.journal, CreditedTo(EarningKey(c, credits[i].creator)))
            == TotalsOf(db.earnings)(EarningKey(c, credits[i].creator));
      }
    }
    CreditsCountUp(db.journal, db.campaigns[c], c, credits, after);
    forall key ensures Sum(after, CreditedTo(key)) == TotalsOf(progress.rows)(key) {
      CountAfterPass(db, c, pass, progress, after, key);
    }
  }

  lemma CountAfterPass(db: Db, c: nat, pass: Settlement.Pass, progress: Settlement.Progress,
      after: seq<JournalLine>, key: EarningKey)
    requires Counted(db) && pass.campaign == c && LedTo(db.journal, after, c, progress.credits)
    requires Settlement.TrueCredits(pass, db.earnings, progress)
    requires key.campaign != c ==> RowAt(progress.rows, key) == RowAt(db.earnings, key)
    ensures Sum(after, CreditedTo(key)) == TotalsOf(progress.rows)(key)
  {
    assert Sum(db.journal, CreditedTo(key)) == TotalsOf(db.earnings)(key);
    if key.campaign == c {
      assert key == EarningKey(c, key.creator);
      if !Settlement.Uncredited(progress.credits, key.creator) {
        var i :| 0 <= i < |progress.credits| && progress.credits[i].creator == key.creator;
        assert Settlement.CreditIsTrue(pass, db.earnings, progress.rows, progress.credits[i]);
      }
    }
  }

  lemma CreditedKeepsRows(db: Db, c: nat, rows: Earnings, credits: seq<Settlement.Credit>, after: Db)
    requires AllExplained(db) && PostedOnce(db) && c < |db.campaigns|
    requires credits != [] ==> db.campaigns[c].status != Draft
    requires forall j :: 0 <= j < |credits| ==> 0 < credits[j].amount
    requires after == Credited(db, c, rows, credits) && Evolves(db, after)
    ensures AllExplained(after) && PostedOnce(after)
  {
    var lines := EarningLines(db.campaigns[c], c, credits);
    OldLinesExplained(db, after);
    forall i | 0 <= i < |lines|
      ensures Explained(after, lines[i]) && lines[i].reference.value.EarningReference?
    {
      EarningLinesExplained(after, c, credits, i);
    }
    forall txType, id: nat, direction
      ensures BookedFor(after, txType, id, direction) == RowAmount(after, txType, id)
    {
      assert BookedFor(db, txType, id, direction) == RowAmount(db, txType, id);
      SumConcat(db.journal, lines, OfRow(txType, id, direction));
      SumZero(lines, OfRow(txType, id, direction));
    }
  }

  lemma PassFacts(db: Db, c: nat, readings: Readings, pass: Settlement.Pass, progress: Settlement.Progress)
    requires EarningsOk(db) && c < |db.campaigns|
    requires pass == PassFor(db, c, readings) && progress == PassResult(db, c, readings)
    ensures Settlement.TrueCredits(pass, db.earnings, progress)
    ensures forall key: EarningKey :: key.campaign != c ==> RowAt(progress.rows, key) == RowAt(db.earnings, key)
    ensures progress.credits != [] ==> db.campaigns[c].status != Draft
    ensures forall j :: 0 <= j < |progress.credits| ==> 0 < progress.credits[j].amount
  {
    CampaignCurrency(db, c);
    Settlement.CreditsAreTrue(pass, db.earnings, PassBudget(db, c), readings.failAt, |pass.creatorIds|);
    Settlement.PassIsSound(pass, db.earnings, PassBudget(db, c), readings.failAt, |pass.creatorIds|);
  }

  lemma SettleKeepsLines(db: Db, c: nat, readings: Readings)
    requires EarningsOk(db) && LinesOk(db)
    ensures LinesOk(SettleStep(db, c, readings).db)
  {
    if c < |db.campaigns| {
      var pass, progress := PassFor(db, c, readings), PassResult(db, c, readings);
      PassFacts(db, c, readings, pass, progress);
      SettleEvolves(db, c, readings);
      CreditedKeepsRows(db, c, progress.rows, progress.credits, SettleStep(db, c, readings).db);
      PassKeepsCount(db, c, pass, progress);
    }
  }

  // Payments in.

  lemma FundingMarkKeepsLines(db: Db, f: nat, throws: bool)
    requires LinesOk(db) && f < |db.fundings|
    requires db.fundings[f].status == Pending && !db.fundings[f].reference.FromWallet?
    requires Evolves(db, FundingSucceeded(db, f, throws))
    ensures LinesOk(FundingSucceeded(db, f, throws))
  {
    var row, after := db.fundings[f], FundingSucceeded(db, f, throws);
    var postings := FundingPostings(row.organization, Money(row.amount, row.currency));
    SumOfPair(postings, OnSide(Debit));
    SumOfPair(postings, OnSide(Credit));
    PostKeepsLines(db, db.(fundings := db.fundings[f := row.(status := Succeeded)]), throws, CampaignFunding, f,
                   postings, after);
  }

  lemma MarkFundingKeepsLines(db: Db, reference: PaymentReference, succeeded: bool, throws: bool)
    requires LinesOk(db) && FundingsOk(db)
    ensures LinesOk(MarkFunding(db, reference, succeeded, throws))
  {
    var found, after := FindFunding(db.fundings, reference), MarkFunding(db, reference, succeeded, throws);
    MarkFundingEvolves(db, reference, succeeded, throws);
    if found.Some? && db.fundings[found.value].status == Pending {
      assert FundingOk(db.campaigns, db.fundings[found.value]);
      if succeeded {
        FundingMarkKeepsLines(db, found.value, throws);
      } else {
        QuietKeepsLines(db, after);
      }
    }
  }

  lemma TopUpMarkKeepsLines(db: Db, t: nat, throws: bool)
    requires LinesOk(db) && t < |db.topUps| && db.topUps[t].status == Pending
    requires Evolves(db, TopUpSucceeded(db, t, throws))
    ensures LinesOk(TopUpSucceeded(db, t, throws))
  {
    var row, after := db.topUps[t], TopUpSucceeded(db, t, throws);
    var postings := TopUpPostings(row.organization, Money(row.amount, row.currency));
    SumOfPair(postings, OnSide(Debit));
    SumOfPair(postings, OnSide(Credit));
    PostKeepsLines(db, db.(topUps := db.topUps[t := row.(status := Succeeded)]), throws, WalletTopUp, t, postings,
                   after);
  }

  lemma MarkTopUpKeepsLines(db: Db, reference: PaymentReference, succeeded: bool, throws: bool)
    requires LinesOk(db)
    ensures LinesOk(MarkTopUp(db, reference, succeeded, throws))
  {
    var found, after := FindTopUp(db.topUps, reference), MarkTopUp(db, reference, succeeded, throws);
    MarkTopUpEvolves(db, reference, succeeded, throws);
    if found.Some? && db.topUps[found.value].status == Pending {
      if succeeded {
        TopUpMarkKeepsLines(db, found.value, throws);
      } else {
        QuietKeepsLines(db, after);
      }
    }
  }

  lemma AddFundingKeepsLines(db: Db, row: Funding)
    requires LinesOk(db) && row.status == Pending
    ensures LinesOk(AddFunding(db, row))
  {
    AddFundingEvolves(db, row);
    QuietKeepsLines(db, AddFunding(db, row));
  }

  lemma CheckoutKeepsLines(db: Db, c: nat, amount: int, feeBps: Bps, id: nat, bypass: bool, throws: bool)
    requires Inv(db) && LinesOk(db)
    ensures LinesOk(CreateFundingStep(db, c, amount, feeBps, id, bypass, throws).db)
  {
    var reference := if bypass then Bypass(id) else Checkout(id);
    if 0 < amount && c < |db.campaigns| && FindFunding(db.fundings, reference).None? {
      FeeWithinBudget(amount, feeBps);
      var row := Funding(c, db.campaigns[c].organization, amount, FeeMinor(amount, feeBps), db.campaigns[c].currency,
                         Pending, reference);
      AddFundingKeepsLines(db, row);
      AddFundingKeepsRows(db, row);
      MarkFundingKeepsLines(AddFunding(db, row), reference, true, throws);
    }
  }

  lemma WalletPostingSides(organization: nat, budget: Money, fee: Money, direction: Direction)
    requires 0 <= fee.amountMinor
    ensures Sum(WalletFundingPostings(organization, budget, fee), OnSide(direction))
            == budget.amountMinor + fee.amountMinor
  {
    var postings := WalletFundingPostings(organization, budget, fee);
    SumOfPair(postings[..2], OnSide(direction));
    if 0 < fee.amountMinor {
      SumAppend(postings[..2], postings[2], OnSide(direction));
      assert postings == postings[..2] + [postings[2]];
    } else {
      assert postings == postings[..2];
    }
  }

  lemma WalletPaidKeepsLines(db: Db, row: Funding, throws: bool)
    requires LinesOk(db) && row.status == Succeeded && row.reference.FromWallet?
    ensures LinesOk(WalletPaid(db, row, throws))
  {
    var budget, fee := Money(row.amount, row.currency), Money(row.fee, row.currency);
    WalletPaidEvolves(db, row, throws);
    WalletPostingSides(row.organization, budget, fee, Debit);
    WalletPostingSides(row.organization, budget, fee, Credit);
    PostKeepsLines(db, AddFunding(db, row), throws, TransactionType.WalletFunding, |db.fundings|,
                   WalletFundingPostings(row.organization, budget, fee), WalletPaid(db, row, throws));
  }

  lemma WalletCallKeepsLines(db: Db, c: nat, amount: int, feeBps: Bps, id: nat, throws: bool)
    requires LinesOk(db)
    ensures LinesOk(FundFromWalletStep(db, c, amount, feeBps, id, throws).db)
  {
    if 0 < amount && c < |db.campaigns| {
      FeeWithinBudget(amount, feeBps);
      WalletPaidKeepsLines(db, Funding(c, db.campaigns[c].organization, amount, FeeMinor(amount, feeBps),
                                       WALLET_CURRENCY, Succeeded, FromWallet(id)), throws);
    }
  }

  lemma TopUpCallKeepsLines(db: Db, organization: nat, amount: int, id: nat, bypass: bool, throws: bool)
    requires LinesOk(db)
    ensures LinesOk(CreateTopUpStep(db, organization, amount, id, bypass, throws).db)
  {
    var reference := if bypass then Bypass(id) else Checkout(id);
    if MIN_TOP_UP_MINOR <= amount {
      var created := db.(topUps := db.topUps + [TopUp(organization, amount, WALLET_CURRENCY, Pending, reference)]);
      assert Evolves(db, created);
      QuietKeepsLines(db, created);
      MarkTopUpKeepsLines(created, reference, true, throws);
    }
  }

  lemma EventKeepsLines(db: Db, reference: PaymentReference, succeeded: bool, throws: bool)
    requires Inv(db) && LinesOk(db)
    ensures LinesOk(WebhookStep(db, reference, succeeded, throws).db)
  {
    MarkFundingKeepsLines(db, reference, succeeded, throws);
    MarkTopUpKeepsLines(MarkFunding(db, reference, succeeded, throws), reference, succeeded, throws);
  }

  lemma PaymentCallKeepsLines(db: Db, call: Call)
    requires Inv(db) && LinesOk(db)
    requires call.CreateFunding? || call.FundFromWallet? || call.CreateTopUp? || call.Webhook?
    ensures LinesOk(Step(db, call).db)
  {
    match call
    case CreateFunding(c, amount, feeBps, id, bypass, throws) =>
      CheckoutKeepsLines(db, c, amount, feeBps, id, bypass, throws);
    case FundFromWallet(c, amount, feeBps, id, throws) => WalletCallKeepsLines(db, c, amount, feeBps, id, throws);
    case CreateTopUp(organization, amount, id, bypass, throws) =>
      TopUpCallKeepsLines(db, organization, amount, id, bypass, throws);
    case Webhook(reference, succeeded, throws) => EventKeepsLines(db, reference, succeeded, throws);
  }

  // Money back.

  lemma ReturnKeepsLines(db: Db, f: nat, amount: nat, throws: bool)
    requires LinesOk(db) && f < |db.fundings|
    ensures LinesOk(ReturnToWallet(db, f, amount, throws))
  {
    var postings := ReturnPostings(db.fundings[f].organization, Money(amount, db.fundings[f].currency));
    WalletReturnEvolves(db, f, amount, throws);
    SumOfPair(postings, OnSide(Debit));
    SumOfPair(postings, OnSide(Credit));
    PostKeepsLines(db, AddRefund(db, f, amount, Succeeded, None), throws, WalletReturn, |db.refunds|, postings,
                   ReturnToWallet(db, f, amount, throws));
  }

  lemma CardRefundKeepsLines(db: Db, f: nat, amount: nat, outcome: GatewayOutcome)
    requires LinesOk(db) && f < |db.fundings|
    ensures LinesOk(RefundToCard(db, f, amount, outcome))
  {
    CardRefundEvolves(db, f, amount, outcome);
    match outcome
    case Refunded(id) =>
      var postings := RefundPostings(db.fundings[f].organization, Money(amount, db.fundings[f].currency));
      SumOfPair(postings, OnSide(Debit));
      SumOfPair(postings, OnSide(Credit));
      PostKeepsLines(db, Transferred(AddRefund(db, f, amount, Succeeded, Some(id)), CardRefund(f, amount, true)), false,
                     CampaignRefund, |db.refunds|, postings, RefundToCard(db, f, amount, outcome));
    case GatewayFails => QuietKeepsLines(db, RefundToCard(db, f, amount, outcome));
    case PostingFails => QuietKeepsLines(db, RefundToCard(db, f, amount, outcome));
  }

  lemma RefundOneKeepsLines(db: Db, f: nat, amount: nat, toWallet: bool, outcome: GatewayOutcome)
    requires LinesOk(db) && f < |db.fundings|
    ensures LinesOk(RefundOne(db, f, amount, toWallet, outcome))
  {
    if toWallet {
      ReturnKeepsLines(db, f, amount, outcome.PostingFails?);
    } else {
      CardRefundKeepsLines(db, f, amount, outcome);
    }
  }

  lemma {:induction false} RefundDownKeepsLines(
    whole: RefundProgress, db: Db, c: nat, n: nat, remaining: int, refunded: int, count: nat, toWallet: bool,
    gateway: nat -> GatewayOutcome)
    requires n <= |db.fundings| && LinesOk(db)
    requires whole == RefundDown(db, c, n, remaining, refunded, count, toWallet, gateway)
    ensures LinesOk(whole.db)
    decreases n
  {
    if 0 < n && 0 < remaining {
      var f := n - 1;
      var amount, turn := RefundTurn(whole, db, c, f, remaining, refunded, count, toWallet, gateway);
      if 0 < amount {
        RefundOneKeepsLines(db, f, amount, toWallet, gateway(f));
      }
      if !turn.threw {
        RefundDownKeepsLines(whole, turn.db, c, f, turn.remaining, turn.refunded, turn.count, toWallet, gateway);
      }
    }
  }

  lemma RefundCallKeepsLines(db: Db, c: nat, gateway: nat -> GatewayOutcome)
    requires LinesOk(db)
    ensures LinesOk(RefundStep(db, c, gateway).db)
  {
    if c < |db.campaigns| {
      RefundDownKeepsLines(RefundRun(db, c, gateway), db, c, |db.fundings|, RefundableMinor(db, c), 0, 0,
                           db.campaigns[c].currency == WALLET_CURRENCY, gateway);
    }
  }

  lemma CloseKeepsLines(db: Db, c: nat, readings: Readings, gateway: nat -> GatewayOutcome)
    requires Inv(db) && LinesOk(db)
    ensures LinesOk(CloseStep(db, c, readings, gateway).db)
  {
    if c < |db.campaigns| && db.campaigns[c].status == Published {
      var closed := SetCampaign(db, c, db.campaigns[c].(status := Closed));
      assert EarningsOk(closed) by {
        CampaignChangeKeeps(db, c, db.campaigns[c].(status := Closed));
      }
      ClosedRowEvolves(db, c);
      QuietKeepsLines(db, closed);
      SettleKeepsLines(closed, c, readings);
      RefundCallKeepsLines(SettleStep(closed, c, readings).db, c, gateway);
    }
  }

  // Withdrawals.

  lemma ApproveKeepsLines(db: Db, w: nat, payout: PayoutOutcome)
    requires LinesOk(db)
    ensures LinesOk(ApproveStep(db, w, payout).db)
  {
    var after := ApproveStep(db, w, payout).db;
    ApproveEvolves(db, w, payout);
    if ApproveStep(db, w, payout).outcome == Done {
      var row := db.withdrawals[w];
      var postings := WithdrawalPostings(row.creator, Money(row.amount, row.currency));
      SumOfPair(postings, OnSide(Debit));
      SumOfPair(postings, OnSide(Credit));
      PostKeepsLines(db, Transferred(SetWithdrawal(db, w, Paid), Payout(w, row.amount, true)), false,
                     TransactionType.Withdrawal, w, postings, after);
    } else {
      QuietKeepsLines(db, after);
    }
  }

  lemma QuietCampaignCall(db: Db, call: Call)
    requires LinesOk(db) && (call.CreateCampaign? || call.UpdateCampaign? || call.Publish?)
    requires Evolves(db, Step(db, call).db)
    ensures LinesOk(Step(db, call).db)
  {
    var after := Step(db, call).db;
    assert after.(campaigns := db.campaigns) == db;
    QuietKeepsLines(db, after);
  }

  lemma RequestKeepsLines(db: Db, creator: nat, amount: int, currency: Currency, destination: Option<nat>)
    requires LinesOk(db)
    ensures LinesOk(RequestStep(db, creator, amount, currency, destination).db)
  {
    RequestEvolves(db, creator, amount, currency, destination);
    QuietKeepsLines(db, RequestStep(db, creator, amount, currency, destination).db);
  }

  lemma DecideKeepsLines(db: Db, w: nat, from: set<WithdrawalStatus>, status: WithdrawalStatus)
    requires LinesOk(db) && from <= {Requested, Held} && status != Paid
    ensures LinesOk(DecideStep(db, w, from, status).db)
  {
    DecideEvolves(db, w, from, status);
    QuietKeepsLines(db, DecideStep(db, w, from, status).db);
  }

  lemma QuietWithdrawalCall(db: Db, call: Call)
    requires LinesOk(db)
    requires call.RequestWithdrawal? || call.HoldWithdrawal? || call.ReleaseWithdrawal? || call.RejectWithdrawal?
    ensures LinesOk(Step(db, call).db)
  {
    match call
    case RequestWithdrawal(creator, amount, currency, destination) =>
      RequestKeepsLines(db, creator, amount, currency, destination);
    case HoldWithdrawal(w) => DecideKeepsLines(db, w, {Requested}, Held);
    case ReleaseWithdrawal(w) => DecideKeepsLines(db, w, {Held}, Requested);
    case RejectWithdrawal(w) => DecideKeepsLines(db, w, {Requested, Held}, Rejected);
  }

  lemma MoneyCallKeepsLines(db: Db, call: Call)
    requires Inv(db) && LinesOk(db)
    requires call.Settle? || call.Close? || call.RefundUnspent? || call.ApproveWithdrawal?
    ensures LinesOk(Step(db, call).db)
  {
    match call
    case Settle(c, readings) => SettleKeepsLines(db, c, readings);
    case Close(c, readings, gateway) => CloseKeepsLines(db, c, readings, gateway);
    case RefundUnspent(c, gateway) => RefundCallKeepsLines(db, c, gateway);
    case ApproveWithdrawal(w, payout) => ApproveKeepsLines(db, w, payout);
  }

  lemma StepKeepsLines(db: Db, call: Call)
    requires Inv(db) && LinesOk(db)
    ensures LinesOk(Step(db, call).db)
  {
    if call.Settle? || call.Close? || call.RefundUnspent? || call.ApproveWithdrawal? {
      MoneyCallKeepsLines(db, call);
    } else if call.CreateFunding? || call.FundFromWallet? || call.CreateTopUp? || call.Webhook? {
      PaymentCallKeepsLines(db, call);
    } else {
      if call.CreateCampaign? || call.UpdateCampaign? || call.Publish? {
        StepEvolves(db, call);
        QuietCampaignCall(db, call);
      } else {
        QuietWithdrawalCall(db, call);
      }
    }
  }

  lemma {:induction false} LinesOfRun(calls: seq<Call>)
    ensures LinesOk(Run(calls))
  {
    if calls != [] {
      var before := Run(calls[..|calls| - 1]);
      LinesOfRun(calls[..|calls| - 1]);
      assert Inv(before) by { RunKeeps(calls[..|calls| - 1]); }
      StepKeepsLines(before, calls[|calls| - 1]);
    }
  }

  lemma ReachableLines(db: Db)
    requires Reachable(db)
    ensures LinesOk(db)
  {
    var calls: seq<Call> :| db == Run(calls);
    LinesOfRun(calls);
  }

  // What follows.

  /** Every line of the ledger, and every lost one, has a row that explains it. */
  lemma EveryLineIsExplained(db: Db, line: JournalLine)
    requires Reachable(db) && (line in db.journal || line in db.unposted)
    ensures Explained(db, line)
  {
    ReachableLines(db);
  }

  /**
    Every settled row is posted, or lost, exactly once on each side under its own id: a payment that succeeded, a
    refund, a top-up, a withdrawal that was paid. Rows that are not settled are posted nowhere.
   */
  lemma SettledRowsArePostedOnce(db: Db, txType: TransactionType, id: nat, direction: Direction)
    requires Reachable(db)
    ensures BookedFor(db, txType, id, direction) == RowAmount(db, txType, id)
  {
    ReachableLines(db);
  }

  /** The lines of a refund name its row, have its amount and currency, and say whether it went to a card. */
  lemma RefundLinesNameTheirRow(db: Db, line: JournalLine)
    requires Reachable(db) && (line in db.journal || line in db.unposted)
    requires line.txType == CampaignRefund || line.txType == WalletReturn
    ensures line.reference.Some? && line.reference.value.RowReference?
    ensures
      var r := line.reference.value.id;
      && r < |db.refunds| && db.refunds[r].status == Succeeded
      && line.amount == Money(db.refunds[r].amount, db.refunds[r].currency)
      && (line.txType == CampaignRefund <==> db.refunds[r].gatewayRefund.Some?)
  {
    ReachableLines(db);
  }

  /**
    Every credit to a creator follows its debit and ends its reference in the running total it leads to: the sum
    of the creator's credits in that campaign so far. All of them together are the stored total.
   */
  lemma CreditsCountUpToTheTotal(db: Db, i: nat, key: EarningKey)
    requires Reachable(db) && i < |db.journal| && IsCredit(db.journal[i])
    ensures CountsUpAt(db.journal, i)
    ensures Sum(db.journal, CreditedTo(key)) == Accrued(db.earnings, key)
  {
    ReachableLines(db);
    assert CountedAs(db.journal, TotalsOf(db.earnings));
    assert Sum(db.journal, CreditedTo(key)) == TotalsOf(db.earnings)(key);
  }

  lemma CreditsAddUp(journal: seq<JournalLine>, i: nat, j: nat, key: EarningKey)
    requires i < j < |journal|
    requires forall k :: 0 <= k < |journal| ==> 0 <= CreditedTo(key)(journal[k])
    ensures Sum(journal[..i + 1], CreditedTo(key)) + CreditedTo(key)(journal[j])
            <= Sum(journal[..j + 1], CreditedTo(key))
  {
    var between := journal[i + 1..j];
    assert journal[..j + 1] == journal[..i + 1] + between + [journal[j]];
    SumAppend(journal[..i + 1] + between, journal[j], CreditedTo(key));
    SumConcat(journal[..i + 1], between, CreditedTo(key));
    forall k | 0 <= k < |between| ensures 0 <= CreditedTo(key)(between[k]) {
      assert between[k] == journal[i + 1 + k];
    }
    SumNonNegative(between, CreditedTo(key));
  }

  /** No two credits to creators share a reference. */
  lemma EarningReferencesAreDistinct(db: Db, i: nat, j: nat)
    requires Reachable(db) && i < j < |db.journal|
    requires IsCredit(db.journal[i]) && IsCredit(db.journal[j])
    ensures db.journal[i].reference != db.journal[j].reference
  {
    ReachableLines(db);
    assert CountsUpAt(db.journal, i) && CountsUpAt(db.journal, j);
    assert Explained(db, db.journal[j]);
    var reference := db.journal[j].reference.value;
    var key := EarningKey(reference.campaign, reference.creator);
    forall k | 0 <= k < |db.journal| ensures 0 <= CreditedTo(key)(db.journal[k]) {
      assert Explained(db, db.journal[k]);
    }
    CreditsAddUp(db.journal, i, j, key);
  }
}
