/**
  When each decision on a withdrawal is accepted and the one status it leaves, told by the row alone; and what
  this means over runs: a withdrawal that is held is not paid out before somebody releases it.
 */
module WithdrawalDecisions {
  import opened Outcomes
  import opened Sums
  import opened Ledger
  import opened Payments
  import opened PaymentsInvariant
  import opened PaymentsTheorems
  import opened CallEffects
  import opened History
  import opened ClosedCampaigns

  predicate HasStatus(db: Db, w: nat, status: WithdrawalStatus)
  {
    w < |db.withdrawals| && db.withdrawals[w].status == status
  }

  /** Only this row changed, and of it only the status. */
  ghost predicate OnlyMoved(before: Db, after: Db, w: nat, status: WithdrawalStatus)
  {
    && w < |before.withdrawals| && |after.withdrawals| == |before.withdrawals|
    && (forall v :: 0 <= v < |before.withdrawals| && v != w ==> after.withdrawals[v] == before.withdrawals[v])
    && after.withdrawals[w] == before.withdrawals[w].(status := status)
    && after.(withdrawals := before.withdrawals) == before
  }

  /** Asking stores the request, open and exactly as asked. */
  lemma RequestStores(
    db: Db, creator: nat, amount: int, currency: Currency, destination: Option<nat>, response: Response)
    requires Reachable(db) && response == Step(db, RequestWithdrawal(creator, amount, currency, destination))
    ensures response.outcome == Done <==> 0 < amount <= Unclaimed(db, creator, currency)
    ensures response.db == if response.outcome != Done then db else
            db.(withdrawals :=
                  db.withdrawals + [WithdrawalRow(creator, amount, currency, Requested, destination)])
  {
    AvailableIsUnclaimed(db, creator, currency);
  }

  /** A request can be held. */
  lemma HoldHolds(db: Db, w: nat, response: Response)
    requires response == Step(db, HoldWithdrawal(w))
    ensures response.outcome == Done <==> HasStatus(db, w, Requested)
    ensures if response.outcome == Done then OnlyMoved(db, response.db, w, Held) else response.db == db
  {
  }

  /** What is held can be released, and is a request again. */
  lemma ReleaseReleases(db: Db, w: nat, response: Response)
    requires response == Step(db, ReleaseWithdrawal(w))
    ensures response.outcome == Done <==> HasStatus(db, w, Held)
    ensures if response.outcome == Done then OnlyMoved(db, response.db, w, Requested) else response.db == db
  {
  }

  /** A request can be rejected, held or not. */
  lemma RejectRejects(db: Db, w: nat, response: Response)
    requires response == Step(db, RejectWithdrawal(w))
    ensures response.outcome == Done <==> HasStatus(db, w, Requested) || HasStatus(db, w, Held)
    ensures if response.outcome == Done then OnlyMoved(db, response.db, w, Rejected) else response.db == db
  {
  }

  /**
    A request is approved when it has a destination and the payout was made and posted: it is then paid, once to
    the gateway and once in the ledger. A payout whose posting throws is only known to the gateway.
   */
  lemma ApprovePays(db: Db, w: nat, payout: PayoutOutcome, response: Response)
    requires response == Step(db, ApproveWithdrawal(w, payout))
    ensures response.outcome == Done
            <==> HasStatus(db, w, Requested) && db.withdrawals[w].destination.Some? && payout == PayoutPosted
    ensures response.outcome == Done ==>
              && OnlyMoved(db, response.db.(journal := db.journal, sent := db.sent), w, Paid)
              && response.db.sent == db.sent + [Payout(w, db.withdrawals[w].amount, true)]
              && |response.db.journal| == |db.journal| + 2
    ensures response.outcome != Done ==> response.db.(sent := db.sent) == db
    ensures response.outcome != Done && response.db.sent != db.sent ==>
              && HasStatus(db, w, Requested) && payout == PayoutUnposted
              && response.db.sent == db.sent + [Payout(w, db.withdrawals[w].amount, false)]
  {
  }

  /** Until it is released, what was held stays held or is rejected. */
  lemma {:induction false} HeldUntilReleased(db: Db, w: nat, calls: seq<Call>)
    requires HasStatus(db, w, Held) || HasStatus(db, w, Rejected)
    requires ReleaseWithdrawal(w) !in calls
    ensures HasStatus(RunFrom(db, calls), w, Held) || HasStatus(RunFrom(db, calls), w, Rejected)
    decreases calls
  {
    if calls != [] {
      WithdrawalMoves(db, calls[0], w);
      assert calls[0] in calls;
      HeldUntilReleased(Step(db, calls[0]).db, w, calls[1..]);
    }
  }

  /** After a hold, no call of any run pays the withdrawal out unless it was released first. */
  lemma NoPayoutWhileHeld(db: Db, w: nat, calls: seq<Call>, later: Db, payout: PayoutOutcome)
    requires Step(db, HoldWithdrawal(w)).outcome == Done && ReleaseWithdrawal(w) !in calls
    requires later == RunFrom(Step(db, HoldWithdrawal(w)).db, calls)
    ensures Step(later, ApproveWithdrawal(w, payout)).outcome == Refused(Conflict)
    ensures Step(later, ApproveWithdrawal(w, payout)).db == later
  {
    HoldHolds(db, w, Step(db, HoldWithdrawal(w)));
    HeldUntilReleased(Step(db, HoldWithdrawal(w)).db, w, calls);
  }

  /** Releasing undoes holding: the tables, the ledger and the transfers are what they were. */
  lemma ReleaseUndoesHold(db: Db, w: nat)
    requires Step(db, HoldWithdrawal(w)).outcome == Done
    ensures Step(Step(db, HoldWithdrawal(w)).db, ReleaseWithdrawal(w)) == Response(db, Done)
  {
    var held := Step(db, HoldWithdrawal(w));
    var released := Step(held.db, ReleaseWithdrawal(w));
    HoldHolds(db, w, held);
    ReleaseReleases(held.db, w, released);
    assert released.db.withdrawals == db.withdrawals;
  }
}
