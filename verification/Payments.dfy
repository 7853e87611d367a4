/**
  The payments tables and every call on them, each call taken as one step: campaigns
  (src/modules/campaigns/services/campaign.service.ts), fundings, top-ups, settlement, refunds and
  withdrawals (src/modules/payments/application). The ledger is read as a journal.

  A row's id is its position in its table, so creation order is position order.
 */
module Payments {
  import opened Outcomes
  import opened Sums
  import opened Money
  import opened Entitlement
  import opened LedgerTransactions
  import opened Ledger
  import opened EarningTable
  import Settlement

  type Currency = code: string | IsCurrencyCode(code) witness "USD"

  const WALLET_CURRENCY: Currency := "USD"
  const MIN_TOP_UP_MINOR := 5_000
  const MAX_TOP_UP_MINOR := 2_500_000

  datatype CampaignStatus = Draft | Published | Closed

  datatype Campaign =
    Campaign(organization: nat, currency: Currency, budget: nat, terms: Terms, status: CampaignStatus)

  /** The unique reference a payment is looked up by; wallet and bypass references are made up by the service. */
  datatype PaymentReference = Checkout(id: nat) | Bypass(id: nat) | FromWallet(id: nat)

  datatype PaymentStatus = Pending | Succeeded | Failed

  datatype Funding = Funding(
    campaign: nat, organization: nat, amount: nat, fee: nat, currency: Currency, status: PaymentStatus,
    reference: PaymentReference)

  /** A refund without a gateway refund id went back to the wallet. */
  datatype Refund = Refund(
    campaign: nat, organization: nat, funding: nat, amount: nat, currency: Currency, status: PaymentStatus,
    gatewayRefund: Option<nat>)

  datatype TopUp =
    TopUp(organization: nat, amount: nat, currency: Currency, status: PaymentStatus, reference: PaymentReference)

  datatype WithdrawalStatus = Requested | Held | Paid | Rejected

  datatype WithdrawalRow =
    WithdrawalRow(creator: nat, amount: nat, currency: Currency, status: WithdrawalStatus, destination: Option<nat>)

  /** Money the gateway moved: recorded when row and ledger say so, unrecorded when the posting threw after it. */
  datatype Transfer =
    | CardRefund(funding: nat, amount: nat, recorded: bool)
    | Payout(withdrawal: nat, amount: nat, recorded: bool)

  /**
    The tables and the ledger, and beside them what neither holds: the lines of postings that threw after
    their row was written, and the money the gateway has moved.
   */
  datatype Db = Db(
    campaigns: seq<Campaign>,
    fundings: seq<Funding>,
    refunds: seq<Refund>,
    earnings: Earnings,
    topUps: seq<TopUp>,
    withdrawals: seq<WithdrawalRow>,
    journal: seq<JournalLine>,
    unposted: seq<JournalLine>,
    sent: seq<Transfer>)

  const EmptyDb := Db([], [], [], map[], [], [], [], [], [])

  datatype Refusal = NotFound | BadRequest | Conflict | Forbidden | NotUnique | Threw

  datatype Outcome = Done | Refused(reason: Refusal)

  datatype Response = Response(db: Db, outcome: Outcome)

  /** The money fields of an update; without any, it changes only wording or dates. */
  datatype Patch = Patch(
    currency: Option<Currency>, budget: Option<nat>, rewardType: Option<RewardType>, reward: Option<nat>,
    cap: Option<nat>)

  /** What settlement reads from submissions, metrics and fraud, and where its posting throws, if anywhere. */
  datatype Readings = Readings(creatorIds: seq<nat>, views: map<nat, nat>, paused: set<nat>, failAt: Option<nat>)

  /** How one refund ends; a return to the wallet asks no gateway, so only its posting can fail. */
  datatype GatewayOutcome = Refunded(id: nat) | GatewayFails | PostingFails

  datatype PayoutOutcome = PayoutPosted | PayoutThrows | PayoutUnposted

  /** `throws`: the posting of the row the call writes, if it comes to one, throws. */
  datatype Call =
    | CreateCampaign(organization: nat, currency: Currency, budget: nat, terms: Terms)
    | UpdateCampaign(campaign: nat, patch: Patch)
    | Publish(campaign: nat, planAllows: bool)
    | Close(campaign: nat, readings: Readings, gateway: nat -> GatewayOutcome)
    | Settle(campaign: nat, readings: Readings)
    | CreateFunding(campaign: nat, amount: int, feeBps: Bps, id: nat, bypass: bool, throws: bool)
    | FundFromWallet(campaign: nat, amount: int, feeBps: Bps, id: nat, throws: bool)
    | CreateTopUp(organization: nat, amount: int, id: nat, bypass: bool, throws: bool)
    | Webhook(reference: PaymentReference, succeeded: bool, throws: bool)
    | RefundUnspent(campaign: nat, gateway: nat -> GatewayOutcome)
    | RequestWithdrawal(creator: nat, amount: int, currency: Currency, destination: Option<nat>)
    | HoldWithdrawal(withdrawal: nat)
    | ReleaseWithdrawal(withdrawal: nat)
    | RejectWithdrawal(withdrawal: nat)
    | ApproveWithdrawal(withdrawal: nat, payout: PayoutOutcome)

  // Accounts and aggregates.

  function Committed(organization: nat, currency: string): AccountKey
  {
    OwnerAccount(Organization, organization, currency)
  }

  function Wallet(organization: nat, currency: string): AccountKey
  {
    OwnerAccount(OrganizationWallet, organization, currency)
  }

  function Earned(creator: nat, currency: string): AccountKey
  {
    OwnerAccount(Creator, creator, currency)
  }

  function FundingOf(campaign: nat): Funding -> int
  {
    (row: Funding) => if row.campaign == campaign && row.status == Succeeded then row.amount else 0
  }

  function RefundOf(campaign: nat): Refund -> int
  {
    (row: Refund) => if row.campaign == campaign && row.status != Failed then row.amount else 0
  }

  function RefundOn(funding: nat): Refund -> int
  {
    (row: Refund) => if row.funding == funding && row.status != Failed then row.amount else 0
  }

  function FundedMinor(db: Db, campaign: nat): int
  {
    Sum(db.fundings, FundingOf(campaign))
  }

  function RefundedMinor(db: Db, campaign: nat): int
  {
    Sum(db.refunds, RefundOf(campaign))
  }

  ghost function AccruedMinor(db: Db, campaign: nat): int
  {
    CampaignAccrued(db.earnings, campaign)
  }

  /** `totalSucceededMinor`: paid in, less what went back. */
  function TotalSucceededMinor(db: Db, campaign: nat): int
  {
    FundedMinor(db, campaign) - RefundedMinor(db, campaign)
  }

  ghost function RefundableMinor(db: Db, campaign: nat): int
  {
    Settlement.Max(0, TotalSucceededMinor(db, campaign) - AccruedMinor(db, campaign))
  }

  function RefundableOn(db: Db, funding: nat): int
    requires funding < |db.fundings|
  {
    Settlement.Max(0, db.fundings[funding].amount - Sum(db.refunds, RefundOn(funding)))
  }

  function Posted(db: Db, txType: TransactionType, reference: Reference, postings: seq<Posting>): Db
  {
    db.(journal := db.journal + Journalled(txType, Some(reference), postings))
  }

  /** A posting made after its row was written: when it throws, the row stays and the ledger lacks the lines. */
  function Post(db: Db, throws: bool, txType: TransactionType, reference: Reference, postings: seq<Posting>): Db
  {
    if throws then db.(unposted := db.unposted + Journalled(txType, Some(reference), postings))
    else Posted(db, txType, reference, postings)
  }

  // Campaigns.

  predicate TermsValid(budget: nat, terms: Terms)
  {
    0 < budget && 0 < terms.reward && (terms.cap.Some? ==> 0 < terms.cap.value <= budget)
  }

  /** Every amount an update carries is positive; the cap is not compared with the budget again. */
  predicate PatchValid(patch: Patch)
  {
    patch.budget != Some(0) && patch.reward != Some(0) && patch.cap != Some(0)
  }

  function Or<T>(change: Option<T>, current: T): T
  {
    if change.Some? then change.value else current
  }

  function Patched(campaign: Campaign, patch: Patch): Campaign
  {
    campaign.(
      currency := Or(patch.currency, campaign.currency),
      budget := Or(patch.budget, campaign.budget),
      terms := Terms(Or(patch.rewardType, campaign.terms.rewardType), Or(patch.reward, campaign.terms.reward),
                     if patch.cap.Some? then patch.cap else campaign.terms.cap))
  }

  predicate TouchesTerms(patch: Patch)
  {
    patch.currency.Some? || patch.budget.Some? || patch.rewardType.Some? || patch.reward.Some? || patch.cap.Some?
  }

  function SetCampaign(db: Db, c: nat, campaign: Campaign): Db
    requires c < |db.campaigns|
  {
    db.(campaigns := db.campaigns[c := campaign])
  }

  function CreateCampaignStep(db: Db, organization: nat, currency: Currency, budget: nat, terms: Terms): Response
  {
    if !TermsValid(budget, terms) then
      Response(db, Refused(BadRequest))
    else
      Response(db.(campaigns := db.campaigns + [Campaign(organization, currency, budget, terms, Draft)]), Done)
  }

  function UpdateStep(db: Db, c: nat, patch: Patch): Response
  {
    if !PatchValid(patch) then Response(db, Refused(BadRequest))
    else if |db.campaigns| <= c then Response(db, Refused(NotFound))
    else
      var campaign := db.campaigns[c];
      if campaign.status == Draft then Response(SetCampaign(db, c, Patched(campaign, patch)), Done)
      else if campaign.status == Closed || TouchesTerms(patch) then Response(db, Refused(Conflict))
      else Response(db, Done)
  }

  function PublishStep(db: Db, c: nat, planAllows: bool): Response
  {
    if |db.campaigns| <= c then Response(db, Refused(NotFound))
    else if db.campaigns[c].status != Draft then Response(db, Refused(Conflict))
    else if TotalSucceededMinor(db, c) < db.campaigns[c].budget then Response(db, Refused(Conflict))
    else if !planAllows then Response(db, Refused(Forbidden))
    else Response(SetCampaign(db, c, db.campaigns[c].(status := Published)), Done)
  }

  // Payments in.

  function FindFunding(fundings: seq<Funding>, reference: PaymentReference): Option<nat>
  {
    FindBy(fundings, (row: Funding) => row.reference, reference)
  }

  function FindTopUp(topUps: seq<TopUp>, reference: PaymentReference): Option<nat>
  {
    FindBy(topUps, (row: TopUp) => row.reference, reference)
  }

  function FundingSucceeded(db: Db, f: nat, throws: bool): Db
    requires f < |db.fundings|
  {
    var row := db.fundings[f];
    Post(db.(fundings := db.fundings[f := row.(status := Succeeded)]), throws, CampaignFunding, RowReference(f),
         FundingPostings(row.organization, Money(row.amount, row.currency)))
  }

  function MarkFunding(db: Db, reference: PaymentReference, succeeded: bool, throws: bool): Db
  {
    var found := FindFunding(db.fundings, reference);
    if found.None? || db.fundings[found.value].status != Pending then db
    else if succeeded then FundingSucceeded(db, found.value, throws)
    else db.(fundings := db.fundings[found.value := db.fundings[found.value].(status := Failed)])
  }

  function TopUpSucceeded(db: Db, t: nat, throws: bool): Db
    requires t < |db.topUps|
  {
    var row := db.topUps[t];
    Post(db.(topUps := db.topUps[t := row.(status := Succeeded)]), throws, WalletTopUp, RowReference(t),
         TopUpPostings(row.organization, Money(row.amount, row.currency)))
  }

  function MarkTopUp(db: Db, reference: PaymentReference, succeeded: bool, throws: bool): Db
  {
    var found := FindTopUp(db.topUps, reference);
    if found.None? || db.topUps[found.value].status != Pending then db
    else if succeeded then TopUpSucceeded(db, found.value, throws)
    else db.(topUps := db.topUps[found.value := db.topUps[found.value].(status := Failed)])
  }

  /** Both handlers see every event, fundings first; a posting that throws ends it there. */
  function WebhookStep(db: Db, reference: PaymentReference, succeeded: bool, throws: bool): Response
  {
    var funded := MarkFunding(db, reference, succeeded, throws);
    if succeeded && throws && funded != db then Response(funded, Refused(Threw))
    else
      var after := MarkTopUp(funded, reference, succeeded, throws);
      Response(after, if succeeded && throws && after != funded then Refused(Threw) else Done)
  }

  function AddFunding(db: Db, row: Funding): Db
  {
    db.(fundings := db.fundings + [row])
  }

  function CreateFundingStep(db: Db, c: nat, amount: int, feeBps: Bps, id: nat, bypass: bool, throws: bool)
    : Response
  {
    var reference := if bypass then Bypass(id) else Checkout(id);
    if amount <= 0 then Response(db, Refused(BadRequest))
    else if |db.campaigns| <= c then Response(db, Refused(NotFound))
    else if FindFunding(db.fundings, reference).Some? then Response(db, Refused(NotUnique))
    else
      assert 0 <= FeeMinor(amount, feeBps) by { FeeWithinBudget(amount, feeBps); }
      var campaign := db.campaigns[c];
      var row := Funding(c, campaign.organization, amount, FeeMinor(amount, feeBps), campaign.currency, Pending,
          reference);
      var created := AddFunding(db, row);
      Response(if bypass then MarkFunding(created, reference, true, throws) else created,
          if bypass && throws then Refused(Threw) else Done)
  }

  function WalletPaid(db: Db, row: Funding, throws: bool): Db
  {
    Post(AddFunding(db, row), throws, TransactionType.WalletFunding, RowReference(|db.fundings|),
         WalletFundingPostings(row.organization, Money(row.amount, row.currency), Money(row.fee, row.currency)))
  }

  function FundFromWalletStep(db: Db, c: nat, amount: int, feeBps: Bps, id: nat, throws: bool): Response
  {
    if amount <= 0 then Response(db, Refused(BadRequest))
    else if |db.campaigns| <= c then Response(db, Refused(NotFound))
    else if db.campaigns[c].currency != WALLET_CURRENCY then Response(db, Refused(Conflict))
    else
      assert 0 <= FeeMinor(amount, feeBps) by { FeeWithinBudget(amount, feeBps); }
      var organization := db.campaigns[c].organization;
      var fee: nat := FeeMinor(amount, feeBps);
      if Balance(db.journal, Wallet(organization, WALLET_CURRENCY)) < amount + fee then Response(db, Refused(Conflict))
      else if FindFunding(db.fundings, FromWallet(id)).Some? then Response(db, Refused(NotUnique))
      else
        var row := Funding(c, organization, amount, fee, WALLET_CURRENCY, Succeeded, FromWallet(id));
        Response(WalletPaid(db, row, throws), if throws then Refused(Threw) else Done)
  }

  function CreateTopUpStep(db: Db, organization: nat, amount: int, id: nat, bypass: bool, throws: bool): Response
  {
    var reference := if bypass then Bypass(id) else Checkout(id);
    if amount < MIN_TOP_UP_MINOR || MAX_TOP_UP_MINOR < amount then Response(db, Refused(BadRequest))
    else if FindTopUp(db.topUps, reference).Some? then Response(db, Refused(NotUnique))
    else
      var row := TopUp(organization, amount, WALLET_CURRENCY, Pending, reference);
      var created := db.(topUps := db.topUps + [row]);
      Response(if bypass then MarkTopUp(created, reference, true, throws) else created,
          if bypass && throws then Refused(Threw) else Done)
  }

  // Settlement.

  /** A campaign nobody could join yet has no submissions to approve. */
  function PassOf(campaign: Campaign, c: nat, readings: Readings): Settlement.Pass
  {
    var views := (creator: nat) => if creator in readings.views then readings.views[creator] else 0;
    Settlement.Pass(c, campaign.currency, if campaign.status == Draft then [] else readings.creatorIds,
                    (creator: nat) => EntitledMinor(campaign.terms, views(creator)), views, readings.paused)
  }

  function PassFor(db: Db, c: nat, readings: Readings): Settlement.Pass
    requires c < |db.campaigns|
  {
    PassOf(db.campaigns[c], c, readings)
  }

  function SpendableMinor(db: Db, c: nat): int
    requires c < |db.campaigns|
  {
    Settlement.Min(db.campaigns[c].budget, TotalSucceededMinor(db, c))
  }

  /** What a pass may still spend. */
  ghost function PassBudget(db: Db, c: nat): int
    requires c < |db.campaigns|
  {
    SpendableMinor(db, c) - AccruedMinor(db, c)
  }

  function CreditPostings(campaign: Campaign, credit: Settlement.Credit): seq<Posting>
  {
    EarningPostings(campaign.organization, credit.creator, Money(credit.amount, campaign.currency))
  }

  function CreditLines(campaign: Campaign, c: nat, credit: Settlement.Credit): seq<JournalLine>
  {
    Journalled(EarningAccrual, Some(EarningReference(c, credit.creator, credit.total)),
        CreditPostings(campaign, credit))
  }

  function EarningLines(campaign: Campaign, c: nat, credits: seq<Settlement.Credit>): seq<JournalLine>
  {
    if credits == [] then []
    else EarningLines(campaign, c, credits[..|credits| - 1]) + CreditLines(campaign, c, credits[|credits| - 1])
  }

  ghost function PassResult(db: Db, c: nat, readings: Readings): Settlement.Progress
    requires c < |db.campaigns|
  {
    Settlement.Settle(PassFor(db, c, readings), db.earnings, PassBudget(db, c),
        readings.failAt)
  }

  /** The tables after a pass that made these credits. */
  function Credited(db: Db, c: nat, rows: Earnings, credits: seq<Settlement.Credit>): Db
    requires c < |db.campaigns|
  {
    db.(earnings := rows, journal := db.journal + EarningLines(db.campaigns[c], c, credits))
  }

  ghost function SettleStep(db: Db, c: nat, readings: Readings): Response
  {
    if |db.campaigns| <= c then Response(db, Refused(NotFound))
    else
      var after := PassResult(db, c, readings);
      Response(Credited(db, c, after.rows, after.credits), if after.aborted then Refused(Threw) else Done)
  }

  // Refunds.

  /**
    The loop's variables. `stuck` is what the turn that threw had moved before it threw: sent by the gateway,
    or given back in a row, and not counted.
   */
  datatype RefundProgress =
    RefundProgress(db: Db, remaining: int, refunded: int, count: nat, threw: bool, stuck: nat)

  predicate Refundable(db: Db, c: nat, f: nat)
    requires f < |db.fundings|
  {
    db.fundings[f].campaign == c && db.fundings[f].status == Succeeded
  }

  function AddRefund(db: Db, f: nat, amount: nat, status: PaymentStatus, gatewayRefund: Option<nat>): Db
    requires f < |db.fundings|
  {
    var row := db.fundings[f];
    db.(refunds := db.refunds
                   + [Refund(row.campaign, row.organization, f, amount, row.currency, status, gatewayRefund)])
  }

  /** `returnToWallet`: the row first. */
  function ReturnToWallet(db: Db, f: nat, amount: nat, throws: bool): Db
    requires f < |db.fundings|
  {
    Post(AddRefund(db, f, amount, Succeeded, None), throws, WalletReturn, RowReference(|db.refunds|),
         ReturnPostings(db.fundings[f].organization, Money(amount, db.fundings[f].currency)))
  }

  function Transferred(db: Db, transfer: Transfer): Db
  {
    db.(sent := db.sent + [transfer])
  }

  /**
    `refundFunding` seen from outside: the row ends SUCCEEDED and posted, or FAILED and not. The gateway has
    sent the money by the time the posting fails.
   */
  function RefundToCard(db: Db, f: nat, amount: nat, outcome: GatewayOutcome): Db
    requires f < |db.fundings|
  {
    match outcome
    case Refunded(id) =>
      Posted(Transferred(AddRefund(db, f, amount, Succeeded, Some(id)), CardRefund(f, amount, true)),
             CampaignRefund, RowReference(|db.refunds|),
             RefundPostings(db.fundings[f].organization, Money(amount, db.fundings[f].currency)))
    case GatewayFails => AddRefund(db, f, amount, Failed, None)
    case PostingFails => Transferred(AddRefund(db, f, amount, Failed, None), CardRefund(f, amount, false))
  }

  function RefundOne(db: Db, f: nat, amount: nat, toWallet: bool, outcome: GatewayOutcome): Db
    requires f < |db.fundings|
  {
    if toWallet then ReturnToWallet(db, f, amount, outcome.PostingFails?)
    else RefundToCard(db, f, amount, outcome)
  }

  /** What the loop takes back from one funding. */
  function TurnAmount(db: Db, c: nat, f: nat, remaining: int): int
    requires f < |db.fundings|
  {
    if Refundable(db, c, f) then Settlement.Min(RefundableOn(db, f), remaining) else 0
  }

  predicate TurnThrows(toWallet: bool, outcome: GatewayOutcome)
  {
    if toWallet then outcome.PostingFails? else !outcome.Refunded?
  }

  function StuckAt(amount: nat, outcome: GatewayOutcome): nat
  {
    if outcome.PostingFails? then amount else 0
  }

  /** The loop over the first `n` fundings, newest first. */
  function RefundDown(
    db: Db, c: nat, n: nat, remaining: int, refunded: int, count: nat, toWallet: bool, gateway: nat -> GatewayOutcome)
    : RefundProgress
    requires n <= |db.fundings|
    decreases n
  {
    if n == 0 || remaining <= 0 then RefundProgress(db, remaining, refunded, count, false, 0)
    else
      var f := n - 1;
      var amount := TurnAmount(db, c, f, remaining);
      if amount <= 0 then RefundDown(db, c, f, remaining, refunded, count, toWallet, gateway)
      else
        var after := RefundOne(db, f, amount, toWallet, gateway(f));
        if TurnThrows(toWallet, gateway(f)) then
          RefundProgress(after, remaining, refunded, count, true, StuckAt(amount, gateway(f)))
        else RefundDown(after, c, f, remaining - amount, refunded + amount, count + 1, toWallet, gateway)
  }

  ghost function RefundRun(db: Db, c: nat, gateway: nat -> GatewayOutcome): RefundProgress
    requires c < |db.campaigns|
  {
    RefundDown(db, c, |db.fundings|, RefundableMinor(db, c), 0, 0, db.campaigns[c].currency == WALLET_CURRENCY, gateway)
  }

  ghost function RefundStep(db: Db, c: nat, gateway: nat -> GatewayOutcome): Response
  {
    if |db.campaigns| <= c then Response(db, Refused(NotFound))
    else if db.campaigns[c].status == Published then Response(db, Refused(Conflict))
    else if RefundableMinor(db, c) <= 0 then Response(db, Refused(Conflict))
    else
      var run := RefundRun(db, c, gateway);
      Response(run.db, if run.threw then Refused(Threw) else Done)
  }

  // Closing.

  /** The close listener: settle, then return what nobody earned; a settlement that throws stops it. */
  ghost function ReturnUnspent(db: Db, c: nat, readings: Readings, gateway: nat -> GatewayOutcome): Db
    requires c < |db.campaigns|
  {
    if db.campaigns[c].currency != WALLET_CURRENCY then db
    else
      var settled := SettleStep(db, c, readings);
      if settled.outcome.Refused? || RefundableMinor(settled.db, c) <= 0 then settled.db
      else RefundStep(settled.db, c, gateway).db
  }

  /** The campaign is closed whatever the listener does. */
  ghost function CloseStep(db: Db, c: nat, readings: Readings, gateway: nat -> GatewayOutcome): Response
  {
    if |db.campaigns| <= c then Response(db, Refused(NotFound))
    else if db.campaigns[c].status != Published then Response(db, Refused(Conflict))
    else
      Response(ReturnUnspent(SetCampaign(db, c, db.campaigns[c].(status := Closed)), c, readings, gateway), Done)
  }

  // Withdrawals.

  predicate IsOpen(row: WithdrawalRow)
  {
    row.status == Requested || row.status == Held
  }

  function OpenOf(creator: nat, currency: string): WithdrawalRow -> int
  {
    (row: WithdrawalRow) => if row.creator == creator && row.currency == currency && IsOpen(row) then row.amount else 0
  }

  function AvailableMinor(db: Db, creator: nat, currency: string): int
  {
    Balance(db.journal, Earned(creator, currency)) - Sum(db.withdrawals, OpenOf(creator, currency))
  }

  function RequestStep(db: Db, creator: nat, amount: int, currency: Currency, destination: Option<nat>): Response
  {
    if amount <= 0 then Response(db, Refused(BadRequest))
    else if AvailableMinor(db, creator, currency) < amount then Response(db, Refused(Conflict))
    else
      var row := WithdrawalRow(creator, amount, currency, Requested, destination);
      Response(db.(withdrawals := db.withdrawals + [row]), Done)
  }

  function SetWithdrawal(db: Db, w: nat, status: WithdrawalStatus): Db
    requires w < |db.withdrawals|
  {
    db.(withdrawals := db.withdrawals[w := db.withdrawals[w].(status := status)])
  }

  /** Hold, release and reject: one guarded status change. */
  function DecideStep(db: Db, w: nat, from: set<WithdrawalStatus>, status: WithdrawalStatus): Response
  {
    if |db.withdrawals| <= w then Response(db, Refused(NotFound))
    else if db.withdrawals[w].status !in from then Response(db, Refused(Conflict))
    else Response(SetWithdrawal(db, w, status), Done)
  }

  function PaidOut(db: Db, w: nat): Db
    requires w < |db.withdrawals|
  {
    var row := db.withdrawals[w];
    Posted(Transferred(SetWithdrawal(db, w, Paid), Payout(w, row.amount, true)), TransactionType.Withdrawal,
           RowReference(w), WithdrawalPostings(row.creator, Money(row.amount, row.currency)))
  }

  /** Payout, posting, row: a posting that throws leaves the request as it was, with the money already sent. */
  function ApproveStep(db: Db, w: nat, payout: PayoutOutcome): Response
  {
    if |db.withdrawals| <= w then Response(db, Refused(NotFound))
    else if db.withdrawals[w].status != Requested then Response(db, Refused(Conflict))
    else if db.withdrawals[w].destination.None? then Response(db, Refused(Conflict))
    else
      match payout
      case PayoutThrows => Response(db, Refused(Threw))
      case PayoutUnposted => Response(Transferred(db, Payout(w, db.withdrawals[w].amount, false)), Refused(Threw))
      case PayoutPosted => Response(PaidOut(db, w), Done)
  }

  // Runs.

  ghost function Step(db: Db, call: Call): Response
  {
    match call
    case CreateCampaign(organization, currency, budget, terms) =>
      CreateCampaignStep(db, organization, currency, budget, terms)
    case UpdateCampaign(c, patch) => UpdateStep(db, c, patch)
    case Publish(c, planAllows) => PublishStep(db, c, planAllows)
    case Close(c, readings, gateway) => CloseStep(db, c, readings, gateway)
    case Settle(c, readings) => SettleStep(db, c, readings)
    case CreateFunding(c, amount, feeBps, id, bypass, throws) =>
      CreateFundingStep(db, c, amount, feeBps, id, bypass, throws)
    case FundFromWallet(c, amount, feeBps, id, throws) => FundFromWalletStep(db, c, amount, feeBps, id, throws)
    case CreateTopUp(organization, amount, id, bypass, throws) =>
      CreateTopUpStep(db, organization, amount, id, bypass, throws)
    case Webhook(reference, succeeded, throws) => WebhookStep(db, reference, succeeded, throws)
    case RefundUnspent(c, gateway) => RefundStep(db, c, gateway)
    case RequestWithdrawal(creator, amount, currency, destination) =>
      RequestStep(db, creator, amount, currency, destination)
    case HoldWithdrawal(w) => DecideStep(db, w, {Requested}, Held)
    case ReleaseWithdrawal(w) => DecideStep(db, w, {Held}, Requested)
    case RejectWithdrawal(w) => DecideStep(db, w, {Requested, Held}, Rejected)
    case ApproveWithdrawal(w, payout) => ApproveStep(db, w, payout)
  }

  ghost function Run(calls: seq<Call>): Db
  {
    if calls == [] then EmptyDb else Step(Run(calls[..|calls| - 1]), calls[|calls| - 1]).db
  }
}
