/**
  When each lifecycle call on a campaign is accepted and what it leaves in the campaign's row; and what a refund
  leaves in the refund's row for each answer of the gateway.
 */
module CampaignRows {
  import opened Outcomes
  import opened Sums
  import opened Entitlement
  import opened Ledger
  import opened EarningTable
  import opened Payments
  import opened PaymentsInvariant
  import opened PaymentsTheorems
  import opened CallEffects
  import Settlement

  /** A new campaign is a draft with the terms given; amounts are positive and the cap fits the budget. */
  lemma CreateCampaignStores(
    db: Db, organization: nat, currency: Currency, budget: nat, terms: Terms, response: Response)
    requires response == Step(db, CreateCampaign(organization, currency, budget, terms))
    ensures response.outcome == Done
            <==> 0 < budget && 0 < terms.reward && terms.cap != Some(0)
                 && (terms.cap.Some? ==> terms.cap.value <= budget)
    ensures response.db == if response.outcome != Done then db
                           else db.(campaigns := db.campaigns
                                                 + [Campaign(organization, currency, budget, terms, Draft)])
  {
  }

  /** A column an update gives has the new value, and one it does not give has the old. */
  predicate Becomes<T(==)>(change: Option<T>, before: T, after: T)
  {
    match change
    case Some(value) => after == value
    case None => after == before
  }

  predicate Updated(before: Campaign, patch: Patch, after: Campaign)
  {
    && after.organization == before.organization && after.status == before.status
    && Becomes(patch.currency, before.currency, after.currency)
    && Becomes(patch.budget, before.budget, after.budget)
    && Becomes(patch.rewardType, before.terms.rewardType, after.terms.rewardType)
    && Becomes(patch.reward, before.terms.reward, after.terms.reward)
    && (if patch.cap.None? then after.terms.cap == before.terms.cap else after.terms.cap == patch.cap)
  }

  /** Every other campaign and every other table is as it was. */
  ghost predicate OnlyCampaign(before: Db, after: Db, c: nat)
  {
    && c < |before.campaigns| && |after.campaigns| == |before.campaigns|
    && (forall d :: 0 <= d < |before.campaigns| && d != c ==> after.campaigns[d] == before.campaigns[d])
    && after.(campaigns := before.campaigns) == before
  }

  const NoTerms := Patch(None, None, None, None, None)

  /** A draft takes any positive terms; a live campaign takes an update that names none; a closed one takes none. */
  lemma UpdateStores(db: Db, c: nat, patch: Patch, response: Response)
    requires response == Step(db, UpdateCampaign(c, patch))
    ensures response.outcome == Done <==>
            && c < |db.campaigns|
            && patch.budget != Some(0) && patch.reward != Some(0) && patch.cap != Some(0)
            && (db.campaigns[c].status == Draft || (db.campaigns[c].status == Published && patch == NoTerms))
    ensures response.outcome == Done ==>
              && OnlyCampaign(db, response.db, c)
              && Updated(db.campaigns[c], patch, response.db.campaigns[c])
    ensures response.outcome != Done ==> response.db == db
  {
  }

  /** A draft is published exactly when its budget has been paid in and stayed and the plan allows one more. */
  lemma PublishStores(db: Db, c: nat, planAllows: bool, response: Response)
    requires response == Step(db, Publish(c, planAllows))
    ensures response.outcome == Done <==>
            && c < |db.campaigns| && db.campaigns[c].status == Draft
            && db.campaigns[c].budget <= FundedMinor(db, c) - RefundedMinor(db, c)
            && planAllows
    ensures response.outcome == Done ==>
              && OnlyCampaign(db, response.db, c)
              && response.db.campaigns[c] == db.campaigns[c].(status := Published)
    ensures response.outcome != Done ==> response.db == db
  {
  }

  /** A published campaign is closed, whatever follows; in a currency other than dollars nothing follows. */
  lemma CloseStores(db: Db, c: nat, readings: Readings, gateway: nat -> GatewayOutcome, response: Response)
    requires response == Step(db, Close(c, readings, gateway))
    ensures response.outcome == Done <==> c < |db.campaigns| && db.campaigns[c].status == Published
    ensures response.outcome != Done ==> response.db == db
    ensures response.outcome == Done ==>
              response.db.campaigns == db.campaigns[c := db.campaigns[c].(status := Closed)]
    ensures response.outcome == Done && db.campaigns[c].currency != "USD" ==>
              response.db == db.(campaigns := db.campaigns[c := db.campaigns[c].(status := Closed)])
  {
    if c < |db.campaigns| {
      RefundKeepsCampaigns(SettleStep(SetCampaign(db, c, db.campaigns[c].(status := Closed)), c, readings).db, c,
                           gateway);
    }
  }

  // Refunds.

  /** What a refund's row says for each answer: money back in the wallet, back on a card, or nothing. */
  predicate TellsTheAnswer(row: Refund, toWallet: bool, answer: GatewayOutcome)
  {
    if toWallet then row.status == Succeeded && row.gatewayRefund == None
    else
      match answer
      case Refunded(id) => row.status == Succeeded && row.gatewayRefund == Some(id)
      case _ => row.status == Failed && row.gatewayRefund == None
  }

  predicate CopiesFunding(row: Refund, fundings: seq<Funding>, c: nat)
  {
    && row.funding < |fundings| && row.campaign == c && fundings[row.funding].campaign == c
    && fundings[row.funding].status == Succeeded
    && row.organization == fundings[row.funding].organization
    && row.currency == fundings[row.funding].currency
  }

  ghost predicate NewRefunds(before: Db, after: Db, c: nat, toWallet: bool, gateway: nat -> GatewayOutcome)
  {
    && before.refunds <= after.refunds && after.fundings == before.fundings
    && forall r :: |before.refunds| <= r < |after.refunds| ==>
         && 0 < after.refunds[r].amount
         && CopiesFunding(after.refunds[r], after.fundings, c)
         && TellsTheAnswer(after.refunds[r], toWallet, gateway(after.refunds[r].funding))
  }

  lemma TurnTellsTheAnswer(db: Db, c: nat, f: nat, amount: nat, toWallet: bool, gateway: nat -> GatewayOutcome,
      next: Db)
    requires f < |db.fundings| && (0 < amount ==> Refundable(db, c, f))
    requires next == if amount == 0 then db else RefundOne(db, f, amount, toWallet, gateway(f))
    ensures NewRefunds(db, next, c, toWallet, gateway)
  {
  }

  lemma NewRefundsJoin(
    db: Db, next: Db, after: Db, c: nat, toWallet: bool, gateway: nat -> GatewayOutcome)
    requires NewRefunds(db, next, c, toWallet, gateway) && NewRefunds(next, after, c, toWallet, gateway)
    ensures NewRefunds(db, after, c, toWallet, gateway)
  {
  }

  lemma {:induction false} LoopTellsTheAnswers(
    whole: RefundProgress, db: Db, c: nat, n: nat, remaining: int, refunded: int, count: nat, toWallet: bool,
    gateway: nat -> GatewayOutcome)
    requires n <= |db.fundings|
    requires whole == RefundDown(db, c, n, remaining, refunded, count, toWallet, gateway)
    ensures NewRefunds(db, whole.db, c, toWallet, gateway)
    decreases n
  {
    if 0 < n && 0 < remaining {
      var f := n - 1;
      var amount, turn := RefundTurn(whole, db, c, f, remaining, refunded, count, toWallet, gateway);
      TurnTellsTheAnswer(db, c, f, amount, toWallet, gateway, turn.db);
      if !turn.threw {
        LoopTellsTheAnswers(whole, turn.db, c, f, turn.remaining, turn.refunded, turn.count, toWallet, gateway);
        NewRefundsJoin(db, turn.db, whole.db, c, toWallet, gateway);
      }
    }
  }

  /**
    Every row a refund stores belongs to a settled payment of its campaign, copies its brand and currency, and
    ends as the gateway answered for that payment; in dollars the gateway is not asked and the wallet has it.
   */
  lemma RefundStores(db: Db, c: nat, gateway: nat -> GatewayOutcome, after: Db)
    requires c < |db.campaigns| && after == Step(db, RefundUnspent(c, gateway)).db
    ensures NewRefunds(db, after, c, db.campaigns[c].currency == "USD", gateway)
  {
    LoopTellsTheAnswers(RefundRun(db, c, gateway), db, c, |db.fundings|, RefundableMinor(db, c), 0, 0,
                        db.campaigns[c].currency == WALLET_CURRENCY, gateway);
  }

  /** A refund is refused while the campaign is live, and when everything that stayed has been earned. */
  lemma RefundIsRefused(db: Db, c: nat, gateway: nat -> GatewayOutcome, response: Response)
    requires response == Step(db, RefundUnspent(c, gateway))
    ensures response.outcome == Refused(NotFound) <==> |db.campaigns| <= c
    ensures response.outcome == Refused(Conflict) <==>
            c < |db.campaigns| && (db.campaigns[c].status == Published
                                   || FundedMinor(db, c) - RefundedMinor(db, c) <= AccruedMinor(db, c))
    ensures response.outcome == Refused(NotFound) || response.outcome == Refused(Conflict) ==> response.db == db
  {
  }
}
