/**
  What the gateway moved against what tables and ledger say it moved. A refund and a payout both reach the
  gateway before their posting (src/modules/payments/application/refund.service.ts:113-138,
  src/modules/payments/application/withdrawal.service.ts:128-162): if the posting throws, the money is gone and
  nothing says so, and the next call sends it again.
 */
module Transfers {
  import opened Outcomes
  import opened Sums
  import opened Money
  import opened Entitlement
  import opened LedgerTransactions
  import opened Ledger
  import opened EarningTable
  import opened Payments
  import opened PaymentsBooks
  import opened PaymentsInvariant
  import opened PaymentsTheorems
  import Settlement

  // What was moved, and what is known of it.

  function SentOn(f: nat): Transfer -> int
  {
    (transfer: Transfer) => if transfer.CardRefund? && transfer.funding == f then transfer.amount else 0
  }

  function RecordedOn(f: nat): Transfer -> int
  {
    (transfer: Transfer) =>
      if transfer.CardRefund? && transfer.funding == f && transfer.recorded then transfer.amount else 0
  }

  function UnrecordedOn(f: nat): Transfer -> int
  {
    (transfer: Transfer) =>
      if transfer.CardRefund? && transfer.funding == f && !transfer.recorded then transfer.amount else 0
  }

  function SentFor(w: nat): Transfer -> int
  {
    (transfer: Transfer) => if transfer.Payout? && transfer.withdrawal == w then transfer.amount else 0
  }

  function RecordedFor(w: nat): Transfer -> int
  {
    (transfer: Transfer) =>
      if transfer.Payout? && transfer.withdrawal == w && transfer.recorded then transfer.amount else 0
  }

  function UnrecordedFor(w: nat): Transfer -> int
  {
    (transfer: Transfer) =>
      if transfer.Payout? && transfer.withdrawal == w && !transfer.recorded then transfer.amount else 0
  }

  /** What the table says went back to the card of one funding. */
  function CardRefundedOn(f: nat): Refund -> int
  {
    (row: Refund) =>
      if row.funding == f && row.status == Succeeded && row.gatewayRefund.Some? then row.amount else 0
  }

  function PaidMinor(withdrawals: seq<WithdrawalRow>, w: nat): int
  {
    if w < |withdrawals| && withdrawals[w].status == Paid then withdrawals[w].amount else 0
  }

  /** Row by row, the recorded transfers are what the tables say was moved. */
  ghost predicate TransfersOk(db: Db)
  {
    && (forall f: nat :: Sum(db.sent, RecordedOn(f)) == Sum(db.refunds, CardRefundedOn(f)))
    && (forall w: nat :: Sum(db.sent, RecordedFor(w)) == PaidMinor(db.withdrawals, w))
    && AllPositive(db)
  }

  predicate AllPositive(db: Db)
  {
    && (forall i :: 0 <= i < |db.sent| ==> 0 < db.sent[i].amount)
    && (forall w :: 0 <= w < |db.withdrawals| ==> 0 < db.withdrawals[w].amount)
  }

  // Every call keeps this.

  lemma SameTransfersOk(db: Db, after: Db)
    requires TransfersOk(db) && after.sent == db.sent && after.refunds == db.refunds
    requires forall w: nat :: PaidMinor(after.withdrawals, w) == PaidMinor(db.withdrawals, w)
    requires AllPositive(after)
    ensures TransfersOk(after)
  {
    forall f: nat ensures Sum(after.sent, RecordedOn(f)) == Sum(after.refunds, CardRefundedOn(f)) {
      assert Sum(db.sent, RecordedOn(f)) == Sum(db.refunds, CardRefundedOn(f));
    }
    forall w: nat ensures Sum(after.sent, RecordedFor(w)) == PaidMinor(after.withdrawals, w) {
      assert Sum(db.sent, RecordedFor(w)) == PaidMinor(db.withdrawals, w);
    }
  }

  /** One more refund row, with the transfer its outcome made, if any. */
  lemma RefundOneKeepsTransfers(db: Db, f: nat, amount: nat, toWallet: bool, outcome: GatewayOutcome)
    requires TransfersOk(db) && f < |db.fundings| && 0 < amount
    ensures TransfersOk(RefundOne(db, f, amount, toWallet, outcome))
  {
    var after := RefundOne(db, f, amount, toWallet, outcome);
    forall g: nat ensures Sum(after.sent, RecordedOn(g)) == Sum(after.refunds, CardRefundedOn(g)) {
      assert Sum(db.sent, RecordedOn(g)) == Sum(db.refunds, CardRefundedOn(g));
      SumAppend(db.refunds, after.refunds[|db.refunds|], CardRefundedOn(g));
      if after.sent != db.sent {
        SumAppend(db.sent, CardRefund(f, amount, outcome.Refunded?), RecordedOn(g));
      }
    }
    forall w: nat ensures Sum(after.sent, RecordedFor(w)) == PaidMinor(after.withdrawals, w) {
      assert Sum(db.sent, RecordedFor(w)) == PaidMinor(db.withdrawals, w);
      if after.sent != db.sent {
        SumAppend(db.sent, CardRefund(f, amount, outcome.Refunded?), RecordedFor(w));
      }
    }
  }

  lemma {:induction false} RefundDownKeepsTransfers(
    whole: RefundProgress, db: Db, c: nat, n: nat, remaining: int, refunded: int, count: nat, toWallet: bool,
    gateway: nat -> GatewayOutcome)
    requires n <= |db.fundings| && TransfersOk(db)
    requires whole == RefundDown(db, c, n, remaining, refunded, count, toWallet, gateway)
    ensures TransfersOk(whole.db)
    decreases n
  {
    if 0 < n && 0 < remaining {
      var f := n - 1;
      var amount, turn := RefundTurn(whole, db, c, f, remaining, refunded, count, toWallet, gateway);
      if 0 < amount {
        RefundOneKeepsTransfers(db, f, amount, toWallet, gateway(f));
      }
      if !turn.threw {
        RefundDownKeepsTransfers(whole, turn.db, c, f, turn.remaining, turn.refunded, turn.count, toWallet, gateway);
      }
    }
  }

  lemma RefundStepKeepsTransfers(db: Db, c: nat, gateway: nat -> GatewayOutcome)
    requires TransfersOk(db)
    ensures TransfersOk(RefundStep(db, c, gateway).db)
  {
    if c < |db.campaigns| {
      RefundDownKeepsTransfers(RefundRun(db, c, gateway), db, c, |db.fundings|, RefundableMinor(db, c), 0, 0,
                               db.campaigns[c].currency == WALLET_CURRENCY, gateway);
    }
  }

  lemma SettleKeepsTransfers(db: Db, c: nat, readings: Readings)
    requires TransfersOk(db)
    ensures TransfersOk(SettleStep(db, c, readings).db)
  {
    SameTransfersOk(db, SettleStep(db, c, readings).db);
  }

  lemma CloseKeepsTransfers(db: Db, c: nat, readings: Readings, gateway: nat -> GatewayOutcome)
    requires TransfersOk(db)
    ensures TransfersOk(CloseStep(db, c, readings, gateway).db)
  {
    if c < |db.campaigns| {
      var closed := SetCampaign(db, c, db.campaigns[c].(status := Closed));
      SameTransfersOk(db, closed);
      SettleKeepsTransfers(closed, c, readings);
      RefundStepKeepsTransfers(SettleStep(closed, c, readings).db, c, gateway);
    }
  }

  lemma PayoutKeepsTransfers(db: Db, w: nat, payout: PayoutOutcome)
    requires TransfersOk(db)
    ensures TransfersOk(ApproveStep(db, w, payout).db)
  {
    var after := ApproveStep(db, w, payout).db;
    if after.sent != db.sent {
      var transfer := Payout(w, db.withdrawals[w].amount, payout.PayoutPosted?);
      forall f: nat ensures Sum(after.sent, RecordedOn(f)) == Sum(after.refunds, CardRefundedOn(f)) {
        assert Sum(db.sent, RecordedOn(f)) == Sum(db.refunds, CardRefundedOn(f));
        SumAppend(db.sent, transfer, RecordedOn(f));
      }
      forall v: nat ensures Sum(after.sent, RecordedFor(v)) == PaidMinor(after.withdrawals, v) {
        assert Sum(db.sent, RecordedFor(v)) == PaidMinor(db.withdrawals, v);
        SumAppend(db.sent, transfer, RecordedFor(v));
      }
    }
  }

  lemma DecideKeepsTransfers(db: Db, w: nat, from: set<WithdrawalStatus>, status: WithdrawalStatus)
    requires TransfersOk(db) && from <= {Requested, Held} && status != Paid
    ensures TransfersOk(DecideStep(db, w, from, status).db)
  {
    SameTransfersOk(db, DecideStep(db, w, from, status).db);
  }

  lemma RequestKeepsTransfers(db: Db, creator: nat, amount: int, currency: Currency, destination: Option<nat>)
    requires TransfersOk(db)
    ensures TransfersOk(RequestStep(db, creator, amount, currency, destination).db)
  {
    SameTransfersOk(db, RequestStep(db, creator, amount, currency, destination).db);
  }

  lemma WithdrawalCallKeepsTransfers(db: Db, call: Call)
    requires TransfersOk(db)
    requires call.RequestWithdrawal? || call.HoldWithdrawal? || call.ReleaseWithdrawal? || call.RejectWithdrawal?
             || call.ApproveWithdrawal?
    ensures TransfersOk(Step(db, call).db)
  {
    match call
    case RequestWithdrawal(creator, amount, currency, destination) =>
      RequestKeepsTransfers(db, creator, amount, currency, destination);
    case ApproveWithdrawal(w, payout) => PayoutKeepsTransfers(db, w, payout);
    case _ => DecisionKeepsTransfers(db, call);
  }

  lemma DecisionKeepsTransfers(db: Db, call: Call)
    requires TransfersOk(db) && (call.HoldWithdrawal? || call.ReleaseWithdrawal? || call.RejectWithdrawal?)
    ensures TransfersOk(Step(db, call).db)
  {
    match call
    case HoldWithdrawal(w) => DecideKeepsTransfers(db, w, {Requested}, Held);
    case ReleaseWithdrawal(w) => DecideKeepsTransfers(db, w, {Held}, Requested);
    case RejectWithdrawal(w) => DecideKeepsTransfers(db, w, {Requested, Held}, Rejected);
  }

  lemma OtherCallsMoveNothing(db: Db, call: Call)
    requires !call.Close? && !call.Settle? && !call.RefundUnspent?
    requires !call.RequestWithdrawal? && !call.HoldWithdrawal? && !call.ReleaseWithdrawal? && !call.RejectWithdrawal?
    requires !call.ApproveWithdrawal?
    ensures
      var after := Step(db, call).db;
      after.sent == db.sent && after.refunds == db.refunds && after.withdrawals == db.withdrawals
  {
    if call.Webhook? {
      WebhookMovesNothing(db, call.reference, call.succeeded, call.throws);
    }
  }

  lemma WebhookMovesNothing(db: Db, reference: PaymentReference, succeeded: bool, throws: bool)
    ensures
      var after := WebhookStep(db, reference, succeeded, throws).db;
      after.sent == db.sent && after.refunds == db.refunds && after.withdrawals == db.withdrawals
  {
  }

  lemma MoneyCallKeepsTransfers(db: Db, call: Call)
    requires TransfersOk(db) && (call.Close? || call.Settle? || call.RefundUnspent?)
    ensures TransfersOk(Step(db, call).db)
  {
    match call
    case Close(c, readings, gateway) => CloseKeepsTransfers(db, c, readings, gateway);
    case Settle(c, readings) => SettleKeepsTransfers(db, c, readings);
    case RefundUnspent(c, gateway) => RefundStepKeepsTransfers(db, c, gateway);
  }

  lemma StepKeepsTransfers(db: Db, call: Call)
    requires TransfersOk(db)
    ensures TransfersOk(Step(db, call).db)
  {
    if call.Close? || call.Settle? || call.RefundUnspent? {
      MoneyCallKeepsTransfers(db, call);
    } else if call.RequestWithdrawal? || call.HoldWithdrawal? || call.ReleaseWithdrawal? || call.RejectWithdrawal?
              || call.ApproveWithdrawal?
    {
      WithdrawalCallKeepsTransfers(db, call);
    } else {
      OtherCallsMoveNothing(db, call);
      SameTransfersOk(db, Step(db, call).db);
    }
  }

  lemma {:induction false} RunKeepsTransfers(calls: seq<Call>)
    ensures TransfersOk(Run(calls))
  {
    if calls != [] {
      RunKeepsTransfers(calls[..|calls| - 1]);
      StepKeepsTransfers(Run(calls[..|calls| - 1]), calls[|calls| - 1]);
    }
  }

  lemma ReachableTransfers(db: Db)
    requires Reachable(db)
    ensures TransfersOk(db)
  {
    var calls: seq<Call> :| db == Run(calls);
    RunKeepsTransfers(calls);
  }

  // What every run comes to.

  predicate UnrecordedRefund(transfer: Transfer, f: nat)
  {
    transfer.CardRefund? && transfer.funding == f && !transfer.recorded
  }

  predicate UnrecordedPayout(transfer: Transfer, w: nat)
  {
    transfer.Payout? && transfer.withdrawal == w && !transfer.recorded
  }

  /**
    What the gateway has sent back for a funding is what its refund rows say and what no row says. It is what
    the rows say exactly when no transfer went unrecorded, and then no more than was paid.
   */
  lemma SentIsRefundedAndUnrecorded(db: Db, f: nat)
    requires Reachable(db) && f < |db.fundings|
    ensures Sum(db.sent, SentOn(f)) == Sum(db.refunds, CardRefundedOn(f)) + Sum(db.sent, UnrecordedOn(f))
    ensures Sum(db.refunds, CardRefundedOn(f)) <= db.fundings[f].amount
    ensures Sum(db.sent, SentOn(f)) == Sum(db.refunds, CardRefundedOn(f))
            <==> forall i :: 0 <= i < |db.sent| ==> !UnrecordedRefund(db.sent[i], f)
  {
    ReachableTransfers(db);
    assert Sum(db.sent, RecordedOn(f)) == Sum(db.refunds, CardRefundedOn(f));
    SumSplit(db.sent, SentOn(f), RecordedOn(f), UnrecordedOn(f));
    CardRefundsFit(db, f);
    if i :| 0 <= i < |db.sent| && UnrecordedRefund(db.sent[i], f) {
      SumCovers(db.sent, i, UnrecordedOn(f));
    } else {
      SumZero(db.sent, UnrecordedOn(f));
    }
  }

  lemma CardRefundsFit(db: Db, f: nat)
    requires Reachable(db) && f < |db.fundings|
    ensures Sum(db.refunds, CardRefundedOn(f)) <= db.fundings[f].amount
  {
    ReachableKeeps(db);
    assert Sum(db.refunds, RefundOn(f)) <= db.fundings[f].amount;
    RowsCover(db.refunds, f);
  }

  lemma {:induction false} RowsCover(refunds: seq<Refund>, f: nat)
    ensures Sum(refunds, CardRefundedOn(f)) <= Sum(refunds, RefundOn(f))
  {
    if refunds != [] {
      RowsCover(refunds[..|refunds| - 1], f);
    }
  }

  /** The same for payouts: a withdrawal is recorded once, when it is paid, and anything more is unrecorded. */
  lemma PaidOutIsPaidAndUnrecorded(db: Db, w: nat)
    requires Reachable(db)
    ensures Sum(db.sent, SentFor(w)) == PaidMinor(db.withdrawals, w) + Sum(db.sent, UnrecordedFor(w))
    ensures Sum(db.sent, SentFor(w)) == PaidMinor(db.withdrawals, w)
            <==> forall i :: 0 <= i < |db.sent| ==> !UnrecordedPayout(db.sent[i], w)
  {
    ReachableTransfers(db);
    assert Sum(db.sent, RecordedFor(w)) == PaidMinor(db.withdrawals, w);
    SumSplit(db.sent, SentFor(w), RecordedFor(w), UnrecordedFor(w));
    if i :| 0 <= i < |db.sent| && UnrecordedPayout(db.sent[i], w) {
      SumCovers(db.sent, i, UnrecordedFor(w));
    } else {
      SumZero(db.sent, UnrecordedFor(w));
    }
  }

  // What the gateway sent, call by call.

  function ToCards(fundings: seq<Funding>, c: nat): Transfer -> int
  {
    (transfer: Transfer) =>
      if transfer.CardRefund? && transfer.funding < |fundings| && fundings[transfer.funding].campaign == c
      then transfer.amount else 0
  }

  /** What the gateway has sent back to the cards that paid for a campaign. */
  function SentBackMinor(db: Db, c: nat): int
  {
    Sum(db.sent, ToCards(db.fundings, c))
  }

  lemma TurnSends(db: Db, c: nat, f: nat, amount: nat, toWallet: bool, outcome: GatewayOutcome, next: Db)
    requires f < |db.fundings| && db.fundings[f].campaign == c
    requires next == RefundOne(db, f, amount, toWallet, outcome)
    ensures next.fundings == db.fundings
    ensures SentBackMinor(next, c) == SentBackMinor(db, c) + if toWallet || outcome.GatewayFails? then 0 else amount
  {
    if !toWallet && !outcome.GatewayFails? {
      var transfer := CardRefund(f, amount, outcome.Refunded?);
      assert next.sent == db.sent + [transfer];
      SumAppend(db.sent, transfer, ToCards(db.fundings, c));
      assert ToCards(db.fundings, c)(transfer) == amount;
    } else {
      assert next.sent == db.sent;
    }
  }

  /** The gateway sends what the loop reports and, when a posting fails after it, that turn's amount as well. */
  lemma {:induction false} LoopSends(
    whole: RefundProgress, db: Db, c: nat, n: nat, remaining: int, refunded: int, count: nat, toWallet: bool,
    gateway: nat -> GatewayOutcome)
    requires n <= |db.fundings|
    requires whole == RefundDown(db, c, n, remaining, refunded, count, toWallet, gateway)
    ensures SentBackMinor(whole.db, c) - SentBackMinor(db, c)
            == if toWallet then 0 else whole.refunded - refunded + whole.stuck
    decreases n
  {
    if 0 < n && 0 < remaining {
      var f := n - 1;
      var amount, turn := RefundTurn(whole, db, c, f, remaining, refunded, count, toWallet, gateway);
      if 0 < amount {
        TurnSends(db, c, f, amount, toWallet, gateway(f), turn.db);
      }
      if !turn.threw {
        LoopSends(whole, turn.db, c, f, turn.remaining, turn.refunded, turn.count, toWallet, gateway);
      }
    }
  }
}
