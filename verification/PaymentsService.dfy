/**
  The services as they run: one object whose tables are reassigned in place and whose ledger is the
  posting service. Every method is held to the step it stands for, so whatever is proved of runs of
  steps holds of runs of calls on this object.
 */
module PaymentsService {
  import opened Outcomes
  import opened Sums
  import opened Money
  import opened Entitlement
  import opened LedgerTransactions
  import opened Ledger
  import opened EarningTable
  import opened Payments
  import opened PaymentsInvariant
  import opened PaymentsTheorems
  import Settlement

  /** What a settlement pass answers. */
  datatype Summary = Summary(creators: seq<Settlement.CreatorSettlement>, totalAccrued: int, budgetRemaining: int)

  ghost predicate Summarises(db: Db, c: nat, readings: Readings, summary: Summary)
    requires c < |db.campaigns|
  {
    var progress := PassResult(db, c, readings);
    && summary.creators == progress.creators
    && summary.budgetRemaining == progress.budget
    && summary.totalAccrued == SpendableMinor(db, c) - progress.budget
  }

  class PaymentsService {
    const ledger: LedgerService
    var campaigns: seq<Campaign>
    var fundings: seq<Funding>
    var refunds: seq<Refund>
    var earnings: Earnings
    var topUps: seq<TopUp>
    var withdrawals: seq<WithdrawalRow>
    /** The lines of postings that threw after their row was written: no table has them. */
    ghost var unposted: seq<JournalLine>
    /** The money the gateway has moved. */
    ghost var sent: seq<Transfer>

    ghost function Tables(): Db
      reads this, ledger
      requires ledger.Valid()
    {
      Db(campaigns, fundings, refunds, earnings, topUps, withdrawals, ledger.Journal(), unposted, sent)
    }

    ghost predicate Valid()
      reads this, ledger
    {
      ledger.Valid() && Reachable(Tables())
    }

    constructor ()
      ensures Valid() && Tables() == EmptyDb
      ensures fresh(ledger)
    {
      ledger := new LedgerService();
      campaigns, fundings, refunds, earnings, topUps, withdrawals := [], [], [], map[], [], [];
      unposted, sent := [], [];
      new;
      assert Tables() == Run([]);
    }

    /** One call, whichever it is: the tables it leaves and its outcome are those of the step. */
    method Handle(call: Call) returns (outcome: Outcome)
      requires Valid()
      modifies this, ledger
      ensures Valid()
      ensures Step(old(Tables()), call) == Response(Tables(), outcome)
    {
      ghost var before := Tables();
      if call.CreateCampaign? || call.UpdateCampaign? || call.Publish? || call.Close? || call.Settle? {
        outcome := HandleCampaign(call);
      } else if call.CreateFunding? || call.FundFromWallet? || call.CreateTopUp? || call.Webhook?
                || call.RefundUnspent?
      {
        outcome := HandlePayment(call);
      } else {
        outcome := HandleWithdrawal(call);
      }
      ReachableStep(before, call);
    }

    method HandleCampaign(call: Call) returns (outcome: Outcome)
      requires ledger.Valid()
      requires call.CreateCampaign? || call.UpdateCampaign? || call.Publish? || call.Close? || call.Settle?
      modifies this, ledger
      ensures ledger.Valid() && Step(old(Tables()), call) == Response(Tables(), outcome)
    {
      match call {
        case CreateCampaign(organization, currency, budget, terms) =>
          outcome := CreateCampaign(organization, currency, budget, terms);
        case UpdateCampaign(c, patch) => outcome := UpdateCampaign(c, patch);
        case Publish(c, planAllows) => outcome := Publish(c, planAllows);
        case Close(c, readings, gateway) => outcome := Close(c, readings, gateway);
        case Settle(c, readings) =>
          var summary;
          outcome, summary := SettleCampaign(c, readings);
      }
    }

    method HandlePayment(call: Call) returns (outcome: Outcome)
      requires ledger.Valid()
      requires call.CreateFunding? || call.FundFromWallet? || call.CreateTopUp? || call.Webhook? || call.RefundUnspent?
      modifies this, ledger
      ensures ledger.Valid() && Step(old(Tables()), call) == Response(Tables(), outcome)
    {
      match call {
        case CreateFunding(c, amount, feeBps, id, bypass, throws) =>
          outcome := CreateForCampaign(c, amount, feeBps, id, bypass, throws);
        case FundFromWallet(c, amount, feeBps, id, throws) =>
          outcome := FundFromWallet(c, amount, feeBps, id, throws);
        case CreateTopUp(organization, amount, id, bypass, throws) =>
          outcome := CreateTopUp(organization, amount, id, bypass, throws);
        case Webhook(reference, succeeded, throws) => outcome := HandleWebhook(reference, succeeded, throws);
        case RefundUnspent(c, gateway) => outcome := RefundUnspent(c, gateway);
      }
    }

    method HandleWithdrawal(call: Call) returns (outcome: Outcome)
      requires ledger.Valid()
      requires call.RequestWithdrawal? || call.HoldWithdrawal? || call.ReleaseWithdrawal? || call.RejectWithdrawal?
               || call.ApproveWithdrawal?
      modifies this, ledger
      ensures ledger.Valid() && Step(old(Tables()), call) == Response(Tables(), outcome)
    {
      match call {
        case RequestWithdrawal(creator, amount, currency, destination) =>
          outcome := RequestWithdrawal(creator, amount, currency, destination);
        case HoldWithdrawal(w) => outcome := Decide(w, {Requested}, Held);
        case ReleaseWithdrawal(w) => outcome := Decide(w, {Held}, Requested);
        case RejectWithdrawal(w) => outcome := Decide(w, {Requested, Held}, Rejected);
        case ApproveWithdrawal(w, payout) => outcome := Approve(w, payout);
      }
    }

    // Campaigns.

    method CreateCampaign(organization: nat, currency: Currency, budget: nat, terms: Terms) returns (outcome: Outcome)
      requires ledger.Valid()
      modifies `campaigns
      ensures CreateCampaignStep(old(Tables()), organization, currency, budget, terms) == Response(Tables(), outcome)
    {
      if !TermsValid(budget, terms) { return Refused(BadRequest); }
      campaigns := campaigns + [Campaign(organization, currency, budget, terms, Draft)];
      outcome := Done;
    }

    method UpdateCampaign(c: nat, patch: Patch) returns (outcome: Outcome)
      requires ledger.Valid()
      modifies `campaigns
      ensures UpdateStep(old(Tables()), c, patch) == Response(Tables(), outcome)
    {
      if !PatchValid(patch) { return Refused(BadRequest); }
      if |campaigns| <= c { return Refused(NotFound); }
      if campaigns[c].status != Draft {
        if campaigns[c].status != Published || TouchesTerms(patch) { return Refused(Conflict); }
        return Done;
      }
      campaigns := campaigns[c := Patched(campaigns[c], patch)];
      outcome := Done;
    }

    /** What the campaign has been paid, less what went back. */
    method TotalSucceeded(c: nat) returns (total: int)
      requires ledger.Valid()
      ensures total == TotalSucceededMinor(Tables(), c)
    {
      var funded := Sum(fundings, FundingOf(c));
      var refunded := Sum(refunds, RefundOf(c));
      total := funded - refunded;
    }

    method Publish(c: nat, planAllows: bool) returns (outcome: Outcome)
      requires ledger.Valid()
      modifies `campaigns
      ensures PublishStep(old(Tables()), c, planAllows) == Response(Tables(), outcome)
    {
      if |campaigns| <= c { return Refused(NotFound); }
      if campaigns[c].status != Draft { return Refused(Conflict); }
      var paid := TotalSucceeded(c);
      if paid < campaigns[c].budget { return Refused(Conflict); }
      if !planAllows { return Refused(Forbidden); }
      campaigns := campaigns[c := campaigns[c].(status := Published)];
      outcome := Done;
    }

    /** Closes the campaign, then lets the close listener return what nobody earned. */
    method Close(c: nat, readings: Readings, gateway: nat -> GatewayOutcome) returns (outcome: Outcome)
      requires ledger.Valid()
      modifies this, ledger
      ensures ledger.Valid() && CloseStep(old(Tables()), c, readings, gateway) == Response(Tables(), outcome)
    {
      if |campaigns| <= c { return Refused(NotFound); }
      if campaigns[c].status != Published { return Refused(Conflict); }
      campaigns := campaigns[c := campaigns[c].(status := Closed)];
      ReturnUnspentBudget(c, readings, gateway);
      outcome := Done;
    }

    method ReturnUnspentBudget(c: nat, readings: Readings, gateway: nat -> GatewayOutcome)
      requires ledger.Valid() && c < |campaigns|
      modifies this, ledger
      ensures ledger.Valid() && Tables() == ReturnUnspent(old(Tables()), c, readings, gateway)
    {
      if campaigns[c].currency != WALLET_CURRENCY { return; }
      var settled, _ := SettleCampaign(c, readings);
      if settled.Refused? { return; }
      var refundable := Refundable(c);
      if refundable <= 0 { return; }
      var _ := RefundUnspent(c, gateway);
    }

    // Payments in.

    /** A posting made after its row was written. */
    method PostAfterRow(throws: bool, txType: TransactionType, reference: Reference, postings: seq<Posting>)
      requires ledger.Valid() && BalancedPostings(postings)
      modifies `unposted, ledger
      ensures ledger.Valid()
      ensures ledger.Journal()
              == old(ledger.Journal()) + if throws then [] else Journalled(txType, Some(reference), postings)
      ensures unposted == old(unposted) + if throws then Journalled(txType, Some(reference), postings) else []
    {
      if throws {
        unposted := unposted + Journalled(txType, Some(reference), postings);
      } else {
        var _ := ledger.PostBalanced(txType, Some(reference), postings);
      }
    }

    /** Marks the row, then posts it; a posting that throws leaves the row marked. */
    method MarkFundingSucceeded(reference: PaymentReference, throws: bool) returns (threw: bool)
      requires ledger.Valid()
      modifies `fundings, `unposted, ledger
      ensures ledger.Valid()
      ensures threw == (throws && Tables() != old(Tables()))
      ensures Tables() == MarkFunding(old(Tables()), reference, true, throws)
    {
      var found := FindFunding(fundings, reference);
      if found.None? || fundings[found.value].status != Pending { return false; }
      var f := found.value;
      fundings := fundings[f := fundings[f].(status := Succeeded)];
      assert fundings[f] != old(fundings)[f];
      var amount := Money(fundings[f].amount, fundings[f].currency);
      SimplePostingsBalance(fundings[f].organization, 0, amount);
      PostAfterRow(throws, CampaignFunding, RowReference(f), FundingPostings(fundings[f].organization, amount));
      threw := throws;
    }

    method MarkFundingFailed(reference: PaymentReference)
      requires ledger.Valid()
      modifies `fundings
      ensures forall throws :: Tables() == MarkFunding(old(Tables()), reference, false, throws)
    {
      var found := FindFunding(fundings, reference);
      if found.None? || fundings[found.value].status != Pending { return; }
      fundings := fundings[found.value := fundings[found.value].(status := Failed)];
    }

    method MarkTopUpSucceeded(reference: PaymentReference, throws: bool) returns (threw: bool)
      requires ledger.Valid()
      modifies `topUps, `unposted, ledger
      ensures ledger.Valid()
      ensures threw == (throws && Tables() != old(Tables()))
      ensures Tables() == MarkTopUp(old(Tables()), reference, true, throws)
    {
      var found := FindTopUp(topUps, reference);
      if found.None? || topUps[found.value].status != Pending { return false; }
      var t := found.value;
      topUps := topUps[t := topUps[t].(status := Succeeded)];
      assert topUps[t] != old(topUps)[t];
      var amount := Money(topUps[t].amount, topUps[t].currency);
      SimplePostingsBalance(topUps[t].organization, 0, amount);
      PostAfterRow(throws, WalletTopUp, RowReference(t), TopUpPostings(topUps[t].organization, amount));
      threw := throws;
    }

    method MarkTopUpFailed(reference: PaymentReference)
      requires ledger.Valid()
      modifies `topUps
      ensures forall throws :: Tables() == MarkTopUp(old(Tables()), reference, false, throws)
    {
      var found := FindTopUp(topUps, reference);
      if found.None? || topUps[found.value].status != Pending { return; }
      topUps := topUps[found.value := topUps[found.value].(status := Failed)];
    }

    /** Fundings first; a posting that throws there keeps the event from the top-ups. */
    method HandleWebhook(reference: PaymentReference, succeeded: bool, throws: bool) returns (outcome: Outcome)
      requires ledger.Valid()
      modifies `fundings, `topUps, `unposted, ledger
      ensures ledger.Valid()
      ensures WebhookStep(old(Tables()), reference, succeeded, throws) == Response(Tables(), outcome)
    {
      if succeeded {
        var threw := MarkFundingSucceeded(reference, throws);
        if threw { return Refused(Threw); }
        threw := MarkTopUpSucceeded(reference, throws);
        if threw { return Refused(Threw); }
      } else {
        MarkFundingFailed(reference);
        MarkTopUpFailed(reference);
      }
      outcome := Done;
    }

    method CreateForCampaign(c: nat, amount: int, feeBps: Bps, id: nat, bypass: bool, throws: bool)
      returns (outcome: Outcome)
      requires ledger.Valid()
      modifies `fundings, `unposted, ledger
      ensures ledger.Valid()
      ensures CreateFundingStep(old(Tables()), c, amount, feeBps, id, bypass, throws) == Response(Tables(), outcome)
    {
      if amount <= 0 { return Refused(BadRequest); }
      if |campaigns| <= c { return Refused(NotFound); }
      FeeWithinBudget(amount, feeBps);
      var fee: nat := FeeMinor(amount, feeBps);
      var reference := if bypass then Bypass(id) else Checkout(id);
      var taken := FindFunding(fundings, reference);
      if taken.Some? { return Refused(NotUnique); }
      fundings := fundings + [Funding(c, campaigns[c].organization, amount, fee, campaigns[c].currency, Pending,
          reference)];
      if bypass {
        var threw := MarkFundingSucceeded(reference, throws);
        if threw { return Refused(Threw); }
      }
      outcome := Done;
    }

    /** Checks the wallet, stores the funding as succeeded, then posts it; a posting that throws leaves the row. */
    method FundFromWallet(c: nat, amount: int, feeBps: Bps, id: nat, throws: bool) returns (outcome: Outcome)
      requires ledger.Valid()
      modifies `fundings, `unposted, ledger
      ensures ledger.Valid()
      ensures FundFromWalletStep(old(Tables()), c, amount, feeBps, id, throws) == Response(Tables(), outcome)
    {
      if amount <= 0 { return Refused(BadRequest); }
      if |campaigns| <= c { return Refused(NotFound); }
      if campaigns[c].currency != WALLET_CURRENCY { return Refused(Conflict); }
      FeeWithinBudget(amount, feeBps);
      var fee: nat := FeeMinor(amount, feeBps);
      var organization := campaigns[c].organization;
      var balance := ledger.WalletBalanceMinor(organization, WALLET_CURRENCY);
      if balance < amount + fee { return Refused(Conflict); }
      var taken := FindFunding(fundings, FromWallet(id));
      if taken.Some? { return Refused(NotUnique); }
      var f := |fundings|;
      fundings := fundings + [Funding(c, organization, amount, fee, WALLET_CURRENCY, Succeeded, FromWallet(id))];
      var budgetMoney, feeMoney := Money(amount, WALLET_CURRENCY), Money(fee, WALLET_CURRENCY);
      WalletFundingBalances(organization, budgetMoney, feeMoney);
      PostAfterRow(throws, TransactionType.WalletFunding, RowReference(f),
                   WalletFundingPostings(organization, budgetMoney, feeMoney));
      assert Tables() == WalletPaid(old(Tables()), fundings[f], throws);
      outcome := if throws then Refused(Threw) else Done;
    }

    method CreateTopUp(organization: nat, amount: int, id: nat, bypass: bool, throws: bool)
      returns (outcome: Outcome)
      requires ledger.Valid()
      modifies `topUps, `unposted, ledger
      ensures ledger.Valid()
      ensures CreateTopUpStep(old(Tables()), organization, amount, id, bypass, throws) == Response(Tables(), outcome)
    {
      if amount < MIN_TOP_UP_MINOR { return Refused(BadRequest); }
      if MAX_TOP_UP_MINOR < amount { return Refused(BadRequest); }
      var reference := if bypass then Bypass(id) else Checkout(id);
      var taken := FindTopUp(topUps, reference);
      if taken.Some? { return Refused(NotUnique); }
      topUps := topUps + [TopUp(organization, amount, WALLET_CURRENCY, Pending, reference)];
      if bypass {
        var threw := MarkTopUpSucceeded(reference, throws);
        if threw { return Refused(Threw); }
      }
      outcome := Done;
    }

    // Settlement.

    /** The campaign's running totals added up, in whatever order the rows come. */
    method SumOfAccrued(c: nat) returns (total: int)
      requires ledger.Valid()
      ensures total == AccruedMinor(Tables(), c)
    {
      total := 0;
      var left := earnings.Keys;
      ghost var weight := Contribution(earnings, OfCampaign(c));
      while left != {}
        invariant left <= earnings.Keys
        invariant total + SetSum(left, weight) == AccruedMinor(Tables(), c)
        decreases |left|
      {
        var key :| key in left;
        SetSumRemove(left, key, weight);
        if key.campaign == c {
          total := total + earnings[key].accrued;
        }
        left := left - {key};
      }
    }

    /** The conditional write, and the first row behind it. */
    method ClaimTotal(key: EarningKey, currency: string, expected: int, total: int) returns (won: bool)
      modifies `earnings
      ensures (earnings, won) == Claim(old(earnings), key, currency, expected, total)
    {
      if key in earnings && earnings[key].accrued == expected {
        earnings := earnings[key := earnings[key].(accrued := total)];
        return true;
      }
      if expected != 0 { return false; }
      if key in earnings { return false; }
      earnings := earnings[key := Earning(total, currency)];
      won := true;
    }

    /** Claims, posts, and gives the claim back if the posting throws. */
    method AccrueCredit(c: nat, creator: nat, credit: int, previous: int, postFails: bool)
        returns (credited: bool, threw: bool)
      requires ledger.Valid() && c < |campaigns|
      modifies `earnings, ledger
      ensures ledger.Valid()
      ensures Settlement.Accrual(earnings, credited, threw)
              == Settlement.Accrue(old(earnings), EarningKey(c, creator), campaigns[c].currency, credit, previous,
                  postFails)
      ensures ledger.Journal() == old(ledger.Journal())
              + if credited then CreditLines(campaigns[c], c, Settlement.Credit(creator, credit, previous + credit))
                  else []
    {
      var key, campaign := EarningKey(c, creator), campaigns[c];
      var won := ClaimTotal(key, campaign.currency, previous, previous + credit);
      if !won { return false, false; }
      if postFails {
        var _ := ClaimTotal(key, campaign.currency, previous + credit, previous);
        return false, true;
      }
      var amount := Money(credit, campaign.currency);
      SimplePostingsBalance(campaign.organization, creator, amount);
      var _ := ledger.PostBalanced(EarningAccrual, Some(EarningReference(c, creator, previous + credit)),
                                   EarningPostings(campaign.organization, creator, amount));
      credited, threw := true, false;
    }

    /** One creator's turn; `made` is the credit, if there was one. */
    method SettleCreator(
      c: nat, pass: Settlement.Pass, snapshot: Earnings, budgetRemaining: int, creator: nat, postFails: bool,
      ghost before: Settlement.Progress)
      returns (line: Settlement.CreatorSettlement, threw: bool, ghost made: seq<Settlement.Credit>)
      requires ledger.Valid() && c < |campaigns| && pass.campaign == c && pass.currency == campaigns[c].currency
      requires before.rows == earnings && before.budget == budgetRemaining && !before.aborted
      modifies `earnings, ledger
      ensures ledger.Valid()
      ensures Settlement.SettleOne(pass, snapshot, before, creator, postFails) ==
              if threw then before.(rows := earnings, aborted := true)
              else Settlement.Progress(earnings, budgetRemaining - line.creditedNow, before.credits + made,
                                       before.creators + [line], false)
      ensures |made| <= 1 && (threw ==> made == [])
      ensures ledger.Journal()
              == old(ledger.Journal()) + if made == [] then [] else CreditLines(campaigns[c], c, made[0])
    {
      var already := Accrued(snapshot, EarningKey(c, creator));
      var paused := creator in pass.paused;
      var credit :=
        if paused then 0 else Settlement.Max(0, Settlement.Min(pass.entitled(creator) - already, budgetRemaining));
      assert credit == Settlement.CreditMinor(pass, creator, already, before.budget);
      var credited := false;
      threw, made := false, [];
      if 0 < credit {
        credited, threw := AccrueCredit(c, creator, credit, already, postFails);
        made := if credited then [Settlement.Credit(creator, credit, already + credit)] else [];
      }
      var creditedNow := if credited then credit else 0;
      line := Settlement.CreatorSettlement(creator, pass.views(creator), already + creditedNow, creditedNow, paused);
    }

    /** The pass: each credit shrinks the budget the next one may use. */
    method RunPass(c: nat, pass: Settlement.Pass, budget: int, failAt: Option<nat>)
      returns (budgetRemaining: int, creators: seq<Settlement.CreatorSettlement>, threw: bool,
               ghost after: Settlement.Progress)
      requires ledger.Valid() && c < |campaigns| && pass.campaign == c && pass.currency == campaigns[c].currency
      modifies `earnings, ledger
      ensures ledger.Valid()
      ensures after == Settlement.Settle(pass, old(earnings), budget, failAt)
      ensures after == Settlement.Progress(earnings, budgetRemaining, after.credits, creators, threw)
      ensures ledger.Journal() == old(ledger.Journal()) + EarningLines(campaigns[c], c, after.credits)
    {
      var snapshot := earnings;
      ghost var start := ledger.Journal();
      ghost var credits := [];
      budgetRemaining, creators, threw := budget, [], false;
      for i := 0 to |pass.creatorIds|
        invariant ledger.Valid() && !threw
        invariant Settlement.SettleUpTo(pass, snapshot, budget, failAt, i)
                  == Settlement.Progress(earnings, budgetRemaining, credits, creators, false)
        invariant ledger.Journal() == start + EarningLines(campaigns[c], c, credits)
      {
        var line;
        line, threw, credits := SettleNext(c, pass, snapshot, budget, budgetRemaining, i, failAt, creators, credits,
            start);
        if threw {
          after := Settlement.Progress(earnings, budgetRemaining, credits, creators, true);
          return;
        }
        budgetRemaining, creators := budgetRemaining - line.creditedNow, creators + [line];
      }
      after := Settlement.Progress(earnings, budgetRemaining, credits, creators, false);
    }

    /** The loop's next creator. */
    method SettleNext(
      c: nat, pass: Settlement.Pass, snapshot: Earnings, ghost budget: int, budgetRemaining: int, i: nat,
      failAt: Option<nat>, ghost creators: seq<Settlement.CreatorSettlement>, ghost credits: seq<Settlement.Credit>,
      ghost start: seq<JournalLine>)
      returns (line: Settlement.CreatorSettlement, threw: bool, ghost creditsAfter: seq<Settlement.Credit>)
      requires ledger.Valid() && c < |campaigns| && pass.campaign == c && pass.currency == campaigns[c].currency
      requires i < |pass.creatorIds|
      requires Settlement.SettleUpTo(pass, snapshot, budget, failAt, i)
               == Settlement.Progress(earnings, budgetRemaining, credits, creators, false)
      requires ledger.Journal() == start + EarningLines(campaigns[c], c, credits)
      modifies `earnings, ledger
      ensures ledger.Valid()
      ensures threw ==>
                Settlement.Settle(pass, snapshot, budget, failAt)
                == Settlement.Progress(earnings, budgetRemaining, creditsAfter, creators, true)
      ensures !threw ==>
                Settlement.SettleUpTo(pass, snapshot, budget, failAt, i + 1)
                == Settlement.Progress(earnings, budgetRemaining - line.creditedNow, creditsAfter, creators + [line],
                    false)
      ensures ledger.Journal() == start + EarningLines(campaigns[c], c, creditsAfter)
    {
      ghost var before := Settlement.Progress(earnings, budgetRemaining, credits, creators, false);
      ghost var now := ledger.Journal();
      ghost var made;
      line, threw, made := SettleCreator(c, pass, snapshot, budgetRemaining, pass.creatorIds[i],
          failAt == Some(i), before);
      creditsAfter := credits + made;
      NextTurn(pass, snapshot, budget, failAt, i, before);
      EarningLinesGrow(start, now, ledger.Journal(), campaigns[c], c, credits, made);
    }

    /** `settle`: reads what the pass needs, runs it and reports it. */
    method SettleCampaign(c: nat, readings: Readings) returns (outcome: Outcome, summary: Option<Summary>)
      requires ledger.Valid()
      modifies `earnings, ledger
      ensures ledger.Valid() && SettleStep(old(Tables()), c, readings) == Response(Tables(), outcome)
      ensures summary.Some? <==> outcome == Done
      ensures summary.Some? ==> c < |campaigns| && Summarises(old(Tables()), c, readings, summary.value)
    {
      if |campaigns| <= c { return Refused(NotFound), None; }
      ghost var before := Tables();
      var funded := TotalSucceeded(c);
      var accrued := SumOfAccrued(c);
      var spendable := Settlement.Min(campaigns[c].budget, funded);
      var pass := PassOf(campaigns[c], c, readings);
      var budgetRemaining, creators, threw, after := RunPass(c, pass, spendable - accrued, readings.failAt);
      outcome := if threw then Refused(Threw) else Done;
      summary := if threw then None else Some(Summary(creators, spendable - budgetRemaining, budgetRemaining));
      SettledAs(before, c, readings, pass, spendable, accrued, after, Tables());
    }

    // Refunds.

    method Refundable(c: nat) returns (refundable: int)
      requires ledger.Valid()
      ensures refundable == RefundableMinor(Tables(), c)
    {
      var total := TotalSucceeded(c);
      var accrued := SumOfAccrued(c);
      refundable := Settlement.Max(0, total - accrued);
    }

    /** A refund row that has succeeded, then its posting; a posting that throws leaves the row. */
    method WalletReturnOf(f: nat, amount: nat, throws: bool)
      requires ledger.Valid() && f < |fundings|
      modifies `refunds, `unposted, ledger
      ensures ledger.Valid() && Tables() == ReturnToWallet(old(Tables()), f, amount, throws)
    {
      var row, id := fundings[f], |refunds|;
      refunds := refunds + [Refund(row.campaign, row.organization, f, amount, row.currency, Succeeded, None)];
      SimplePostingsBalance(row.organization, 0, Money(amount, row.currency));
      PostAfterRow(throws, WalletReturn, RowReference(id),
                   ReturnPostings(row.organization, Money(amount, row.currency)));
    }

    /**
      A pending row first; it ends succeeded with its posting, or failed without one, although the gateway has
      sent the money by the time the posting fails.
     */
    method RefundFunding(f: nat, amount: nat, outcome: GatewayOutcome) returns (threw: bool)
      requires ledger.Valid() && f < |fundings|
      modifies `refunds, `sent, ledger
      ensures ledger.Valid() && Tables() == RefundToCard(old(Tables()), f, amount, outcome)
      ensures threw == !outcome.Refunded?
    {
      var row, id := fundings[f], |refunds|;
      refunds := refunds + [Refund(row.campaign, row.organization, f, amount, row.currency, Pending, None)];
      match outcome {
        case Refunded(refundId) =>
          sent := sent + [CardRefund(f, amount, true)];
          SimplePostingsBalance(row.organization, 0, Money(amount, row.currency));
          var _ := ledger.PostBalanced(CampaignRefund, Some(RowReference(id)),
                                       RefundPostings(row.organization, Money(amount, row.currency)));
          refunds := refunds[id := refunds[id].(status := Succeeded, gatewayRefund := Some(refundId))];
          threw := false;
        case GatewayFails =>
          refunds := refunds[id := refunds[id].(status := Failed)];
          threw := true;
        case PostingFails =>
          sent := sent + [CardRefund(f, amount, false)];
          refunds := refunds[id := refunds[id].(status := Failed)];
          threw := true;
      }
    }

    /** One funding: what is still refundable on it, up to what remains. */
    method TakeBack(c: nat, f: nat, remaining: int, toWallet: bool, outcome: GatewayOutcome)
      returns (amount: int, threw: bool)
      requires ledger.Valid() && f < |fundings|
      modifies `refunds, `unposted, `sent, ledger
      ensures ledger.Valid()
      ensures amount == TurnAmount(old(Tables()), c, f, remaining)
      ensures amount <= 0 ==> !threw && Tables() == old(Tables())
      ensures 0 < amount ==> threw == TurnThrows(toWallet, outcome)
      ensures 0 < amount ==> Tables() == RefundOne(old(Tables()), f, amount, toWallet, outcome)
    {
      amount, threw := 0, false;
      if fundings[f].campaign != c || fundings[f].status != Succeeded { return; }
      var available := Settlement.Max(0, fundings[f].amount - Sum(refunds, RefundOn(f)));
      amount := Settlement.Min(available, remaining);
      if amount <= 0 { return; }
      if toWallet {
        WalletReturnOf(f, amount, outcome.PostingFails?);
        threw := outcome.PostingFails?;
      } else {
        threw := RefundFunding(f, amount, outcome);
      }
    }

    /** The loop's next turn; `whole` is what the loop comes to in the end. */
    method RefundNext(c: nat, f: nat, remaining: int, refunded: int, count: nat, toWallet: bool,
                      gateway: nat -> GatewayOutcome, ghost now: Db, ghost whole: RefundProgress)
      returns (remainingAfter: int, refundedAfter: int, countAfter: nat, threw: bool, ghost next: Db, ghost stuck: nat)
      requires ledger.Valid() && now == Tables() && f < |now.fundings| && 0 < remaining
      requires whole == RefundDown(now, c, f + 1, remaining, refunded, count, toWallet, gateway)
      modifies `refunds, `unposted, `sent, ledger
      ensures ledger.Valid() && next == Tables() && f <= |next.fundings|
      ensures threw ==> whole == RefundProgress(next, remainingAfter, refundedAfter, countAfter, true, stuck)
      ensures !threw ==>
                stuck == 0
                && whole == RefundDown(next, c, f, remainingAfter, refundedAfter, countAfter, toWallet, gateway)
    {
      ghost var taken, turn := RefundTurn(whole, now, c, f, remaining, refunded, count, toWallet, gateway);
      var amount;
      amount, threw := TakeBack(c, f, remaining, toWallet, gateway(f));
      next, stuck := Tables(), turn.stuck;
      remainingAfter, refundedAfter, countAfter := remaining, refunded, count;
      if 0 < amount && !threw {
        remainingAfter, refundedAfter, countAfter := remaining - amount, refunded + amount, count + 1;
      }
      assert turn == RefundProgress(next, remainingAfter, refundedAfter, countAfter, threw, stuck);
    }

    /** The loop over the fundings, newest first. */
    method RefundFundings(c: nat, unspent: int, toWallet: bool, gateway: nat -> GatewayOutcome)
      returns (remaining: int, refunded: int, count: nat, threw: bool, ghost stuck: nat)
      requires ledger.Valid()
      modifies `refunds, `unposted, `sent, ledger
      ensures ledger.Valid()
      ensures RefundDown(old(Tables()), c, |fundings|, unspent, 0, 0, toWallet, gateway)
              == RefundProgress(Tables(), remaining, refunded, count, threw, stuck)
    {
      var n: nat := |fundings|;
      remaining, refunded, count, threw, stuck := unspent, 0, 0, false, 0;
      ghost var now := Tables();
      ghost var whole := RefundDown(now, c, n, remaining, refunded, count, toWallet, gateway);
      while 0 < n && 0 < remaining
        invariant ledger.Valid() && now == Tables() && n <= |now.fundings| && !threw && stuck == 0
        invariant whole == RefundDown(now, c, n, remaining, refunded, count, toWallet, gateway)
      {
        n := n - 1;
        remaining, refunded, count, threw, now, stuck :=
          RefundNext(c, n, remaining, refunded, count, toWallet, gateway, now, whole);
        if threw { return; }
      }
      LoopIsOver(now, c, n, remaining, refunded, count, toWallet, gateway);
    }

    /** Takes the unspent budget back. */
    method RefundUnspent(c: nat, gateway: nat -> GatewayOutcome) returns (outcome: Outcome)
      requires ledger.Valid()
      modifies `refunds, `unposted, `sent, ledger
      ensures ledger.Valid() && RefundStep(old(Tables()), c, gateway) == Response(Tables(), outcome)
    {
      if |campaigns| <= c { return Refused(NotFound); }
      if campaigns[c].status == Published { return Refused(Conflict); }
      var remaining := Refundable(c);
      if remaining <= 0 { return Refused(Conflict); }
      var left, refunded, count, threw, _ :=
        RefundFundings(c, remaining, campaigns[c].currency == WALLET_CURRENCY, gateway);
      outcome := if threw then Refused(Threw) else Done;
    }

    // Withdrawals.

    method RequestWithdrawal(creator: nat, amount: int, currency: Currency, destination: Option<nat>)
      returns (outcome: Outcome)
      requires ledger.Valid()
      modifies `withdrawals, ledger
      ensures ledger.Valid() && RequestStep(old(Tables()), creator, amount, currency, destination)
          == Response(Tables(), outcome)
    {
      if amount <= 0 { return Refused(BadRequest); }
      var balance := ledger.CreatorBalanceMinor(creator, currency);
      var open := Sum(withdrawals, OpenOf(creator, currency));
      if balance - open < amount { return Refused(Conflict); }
      withdrawals := withdrawals + [WithdrawalRow(creator, amount, currency, Requested, destination)];
      outcome := Done;
    }

    method Decide(w: nat, from: set<WithdrawalStatus>, status: WithdrawalStatus) returns (outcome: Outcome)
      requires ledger.Valid()
      modifies `withdrawals
      ensures DecideStep(old(Tables()), w, from, status) == Response(Tables(), outcome)
    {
      if |withdrawals| <= w { return Refused(NotFound); }
      if withdrawals[w].status !in from { return Refused(Conflict); }
      withdrawals := withdrawals[w := withdrawals[w].(status := status)];
      outcome := Done;
    }

    /** The payout, then the posting, then the row: if either throws, nothing is stored, sent or not. */
    method Approve(w: nat, payout: PayoutOutcome) returns (outcome: Outcome)
      requires ledger.Valid()
      modifies `withdrawals, `sent, ledger
      ensures ledger.Valid() && ApproveStep(old(Tables()), w, payout) == Response(Tables(), outcome)
    {
      if |withdrawals| <= w { return Refused(NotFound); }
      var row := withdrawals[w];
      if row.status != Requested { return Refused(Conflict); }
      if row.destination.None? { return Refused(Conflict); }
      if payout == PayoutThrows { return Refused(Threw); }
      sent := sent + [Payout(w, row.amount, payout == PayoutPosted)];
      if payout == PayoutUnposted { return Refused(Threw); }
      SimplePostingsBalance(0, row.creator, Money(row.amount, row.currency));
      var _ := ledger.PostBalanced(TransactionType.Withdrawal, Some(RowReference(w)),
                                   WithdrawalPostings(row.creator, Money(row.amount, row.currency)));
      withdrawals := withdrawals[w := withdrawals[w].(status := Paid)];
      outcome := Done;
    }
  }

  lemma SettledAs(
    db: Db, c: nat, readings: Readings, pass: Settlement.Pass, spendable: int, accrued: int, after: Settlement.Progress,
    next: Db)
    requires c < |db.campaigns| && pass == PassFor(db, c, readings)
    requires spendable == SpendableMinor(db, c) && accrued == AccruedMinor(db, c)
    requires after == Settlement.Settle(pass, db.earnings, spendable - accrued, readings.failAt)
    requires next == Credited(db, c, after.rows, after.credits)
    ensures SettleStep(db, c, readings) == Response(next, if after.aborted then Refused(Threw) else Done)
    ensures Summarises(db, c, readings, Summary(after.creators, spendable - after.budget, after.budget))
  {
  }

  lemma LoopIsOver(db: Db, c: nat, n: nat, remaining: int, refunded: int, count: nat, toWallet: bool,
      gateway: nat -> GatewayOutcome)
    requires n <= |db.fundings| && (n == 0 || remaining <= 0)
    ensures RefundDown(db, c, n, remaining, refunded, count, toWallet, gateway)
            == RefundProgress(db, remaining, refunded, count, false, 0)
  {
  }

  lemma EarningLinesGrow(
    start: seq<JournalLine>, now: seq<JournalLine>, next: seq<JournalLine>, campaign: Campaign, c: nat,
    credits: seq<Settlement.Credit>, made: seq<Settlement.Credit>)
    requires |made| <= 1
    requires now == start + EarningLines(campaign, c, credits)
    requires next == now + if made == [] then [] else CreditLines(campaign, c, made[0])
    ensures next == start + EarningLines(campaign, c, credits + made)
  {
    if made == [] {
      assert credits + made == credits;
    } else {
      assert (credits + made)[..|credits|] == credits;
    }
  }

  /** Once a posting has thrown, the rest of the creators are not visited. */
  lemma {:induction false} AbortedForGood(
    pass: Settlement.Pass, rows: Earnings, budget: int, failAt: Option<nat>, n: nat, end: nat)
    requires n <= end <= |pass.creatorIds|
    requires Settlement.SettleUpTo(pass, rows, budget, failAt, n).aborted
    ensures Settlement.SettleUpTo(pass, rows, budget, failAt, end)
            == Settlement.SettleUpTo(pass, rows, budget, failAt, n)
    decreases end
  {
    if n < end {
      AbortedForGood(pass, rows, budget, failAt, n, end - 1);
    }
  }

  lemma NextTurn(
    pass: Settlement.Pass, rows: Earnings, budget: int, failAt: Option<nat>, i: nat, before: Settlement.Progress)
    requires i < |pass.creatorIds| && before == Settlement.SettleUpTo(pass, rows, budget, failAt, i)
    requires !before.aborted
    ensures
      var after := Settlement.SettleOne(pass, rows, before, pass.creatorIds[i], failAt == Some(i));
      && Settlement.SettleUpTo(pass, rows, budget, failAt, i + 1) == after
      && (after.aborted ==> Settlement.Settle(pass, rows, budget, failAt) == after)
  {
    if Settlement.SettleUpTo(pass, rows, budget, failAt, i + 1).aborted {
      AbortedForGood(pass, rows, budget, failAt, i + 1, |pass.creatorIds|);
    }
  }
}
