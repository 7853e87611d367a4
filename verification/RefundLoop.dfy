/**
  The refund loop (src/modules/payments/application/refund.service.ts:52-93): which fundings it takes from, where
  it stops, and what it comes to, told by what each funding can still give back.
 */
module RefundLoop {
  import opened Outcomes
  import opened Sums
  import opened Money
  import opened Entitlement
  import opened LedgerTransactions
  import opened Ledger
  import opened EarningTable
  import opened Payments
  import opened PaymentsBooks
  import opened PaymentsInvariant
  import Settlement

  // What the fundings can still give back is what the campaign holds.

  predicate Counts(row: Funding, c: nat)
  {
    row.campaign == c && row.status == Succeeded
  }

  /** What funding `f` can still give back to the campaign. */
  function LeftOn(fundings: seq<Funding>, refunds: seq<Refund>, c: nat, f: nat): int
    requires f < |fundings|
  {
    if Counts(fundings[f], c) then fundings[f].amount - Sum(refunds, RefundOn(f)) else 0
  }

  /** Left on the first `n` fundings of the campaign. */
  function LeftBelow(fundings: seq<Funding>, refunds: seq<Refund>, c: nat, n: nat): int
    requires n <= |fundings|
  {
    if n == 0 then 0 else LeftBelow(fundings, refunds, c, n - 1) + LeftOn(fundings, refunds, c, n - 1)
  }

  lemma {:induction false} LeftWithoutRefunds(fundings: seq<Funding>, c: nat, n: nat)
    requires n <= |fundings|
    ensures LeftBelow(fundings, [], c, n) == Sum(fundings[..n], FundingOf(c))
  {
    if n > 0 {
      LeftWithoutRefunds(fundings, c, n - 1);
      assert fundings[..n] == fundings[..n - 1] + [fundings[n - 1]];
      SumAppend(fundings[..n - 1], fundings[n - 1], FundingOf(c));
    }
  }

  lemma LeftOnAfterRefund(fundings: seq<Funding>, refunds: seq<Refund>, row: Refund, c: nat, f: nat)
    requires f < |fundings|
    ensures LeftOn(fundings, refunds + [row], c, f) ==
            LeftOn(fundings, refunds, c, f)
            - if row.funding == f && Counts(fundings[f], c) && row.status != Failed then row.amount else 0
  {
    SumAppend(refunds, row, RefundOn(f));
  }

  /** One more refund row takes its amount from its own funding and from no other. */
  lemma {:induction false} LeftAfterRefund(fundings: seq<Funding>, refunds: seq<Refund>, row: Refund, c: nat, n: nat)
    requires n <= |fundings|
    ensures LeftBelow(fundings, refunds + [row], c, n) ==
            LeftBelow(fundings, refunds, c, n)
            - if row.funding < n && Counts(fundings[row.funding], c) && row.status != Failed then row.amount else 0
  {
    if n > 0 {
      LeftAfterRefund(fundings, refunds, row, c, n - 1);
      LeftOnAfterRefund(fundings, refunds, row, c, n - 1);
    }
  }

  /** Summed over the fundings or over the refunds, the same money is left. */
  lemma {:induction false} LeftIsWhatStayed(fundings: seq<Funding>, refunds: seq<Refund>, c: nat)
    requires forall i :: 0 <= i < |refunds| ==> RefundOk(fundings, refunds[i])
    ensures LeftBelow(fundings, refunds, c, |fundings|) == Sum(fundings, FundingOf(c)) - Sum(refunds, RefundOf(c))
  {
    if refunds == [] {
      LeftWithoutRefunds(fundings, c, |fundings|);
      assert fundings[..|fundings|] == fundings;
    } else {
      var n := |refunds| - 1;
      LeftIsWhatStayed(fundings, refunds[..n], c);
      LeftAfterRefund(fundings, refunds[..n], refunds[n], c, |fundings|);
      assert refunds == refunds[..n] + [refunds[n]];
      assert RefundOk(fundings, refunds[n]);
    }
  }

  // Where the loop stops, and what it comes to.

  /** No funding has given back more than it brought. */
  ghost predicate NoneOverdrawn(fundings: seq<Funding>, refunds: seq<Refund>)
  {
    forall f :: 0 <= f < |fundings| ==> Sum(refunds, RefundOn(f)) <= fundings[f].amount
  }

  /** What the fundings newer than `f` give back when the loop comes to `f`. */
  function LeftAbove(fundings: seq<Funding>, refunds: seq<Refund>, c: nat, f: nat, n: nat): int
    requires f < n <= |fundings|
  {
    LeftBelow(fundings, refunds, c, n) - LeftBelow(fundings, refunds, c, f + 1)
  }

  /** The turn of funding `f` comes with something to take, and throws. */
  ghost predicate Blocks(
    db: Db, c: nat, n: nat, remaining: int, toWallet: bool, gateway: nat -> GatewayOutcome, f: nat)
  {
    && f < n <= |db.fundings|
    && TurnThrows(toWallet, gateway(f))
    && 0 < LeftOn(db.fundings, db.refunds, c, f)
    && LeftAbove(db.fundings, db.refunds, c, f, n) < remaining
  }

  ghost predicate BlocksFirst(
    db: Db, c: nat, n: nat, remaining: int, toWallet: bool, gateway: nat -> GatewayOutcome, f: nat)
  {
    && Blocks(db, c, n, remaining, toWallet, gateway, f)
    && forall g :: f < g < n ==> !Blocks(db, c, n, remaining, toWallet, gateway, g)
  }

  ghost predicate NothingBlocks(
    db: Db, c: nat, n: nat, remaining: int, toWallet: bool, gateway: nat -> GatewayOutcome)
  {
    forall f :: 0 <= f < n ==> !Blocks(db, c, n, remaining, toWallet, gateway, f)
  }

  lemma {:induction false} LeftIsNotNegative(fundings: seq<Funding>, refunds: seq<Refund>, c: nat, m: nat, n: nat)
    requires m <= n <= |fundings| && NoneOverdrawn(fundings, refunds)
    ensures LeftBelow(fundings, refunds, c, m) <= LeftBelow(fundings, refunds, c, n)
    decreases n
  {
    if m < n {
      LeftIsNotNegative(fundings, refunds, c, m, n - 1);
    }
  }

  lemma TurnAmountIsLeft(db: Db, c: nat, f: nat, remaining: nat)
    requires f < |db.fundings| && NoneOverdrawn(db.fundings, db.refunds)
    ensures Settlement.Max(0, TurnAmount(db, c, f, remaining))
            == Settlement.Min(LeftOn(db.fundings, db.refunds, c, f), remaining)
  {
    assert Sum(db.refunds, RefundOn(f)) <= db.fundings[f].amount;
  }

  /** A turn changes what its own funding has left and nothing older. */
  lemma TurnLeavesOlder(db: Db, c: nat, f: nat, amount: nat, toWallet: bool, outcome: GatewayOutcome, next: Db, g: nat)
    requires f < |db.fundings| && g <= f && next == RefundOne(db, f, amount, toWallet, outcome)
    ensures next.fundings == db.fundings
    ensures LeftBelow(next.fundings, next.refunds, c, g) == LeftBelow(db.fundings, db.refunds, c, g)
    ensures g < f ==> LeftOn(next.fundings, next.refunds, c, g) == LeftOn(db.fundings, db.refunds, c, g)
  {
    LeftAfterRefund(db.fundings, db.refunds, next.refunds[|db.refunds|], c, g);
    LeftOnAfterRefund(db.fundings, db.refunds, next.refunds[|db.refunds|], c, g);
  }

  lemma TurnOverdrawsNone(db: Db, f: nat, amount: nat, toWallet: bool, outcome: GatewayOutcome, next: Db)
    requires f < |db.fundings| && NoneOverdrawn(db.fundings, db.refunds) && amount <= RefundableOn(db, f)
    requires next == RefundOne(db, f, amount, toWallet, outcome)
    ensures NoneOverdrawn(next.fundings, next.refunds)
  {
    forall g | 0 <= g < |next.fundings| ensures Sum(next.refunds, RefundOn(g)) <= next.fundings[g].amount {
      RefundFits(db, next.refunds[|db.refunds|], g);
    }
  }

  /** After a turn that goes through, the rest of the loop is blocked where the whole loop was. */
  lemma SameBlocksAfterTurn(
    db: Db, c: nat, f: nat, amount: nat, remaining: nat, toWallet: bool, gateway: nat -> GatewayOutcome, next: Db,
    g: nat)
    requires g < f < |db.fundings| && NoneOverdrawn(db.fundings, db.refunds)
    requires amount == Settlement.Min(LeftOn(db.fundings, db.refunds, c, f), remaining)
    requires next == if amount == 0 then db else RefundOne(db, f, amount, toWallet, gateway(f))
    ensures Blocks(db, c, f + 1, remaining, toWallet, gateway, g)
            <==> Blocks(next, c, f, remaining - amount, toWallet, gateway, g)
    ensures g < |next.fundings| && f <= |next.fundings|
    ensures LeftAbove(next.fundings, next.refunds, c, g, f)
            == LeftAbove(db.fundings, db.refunds, c, g, f + 1) - LeftOn(db.fundings, db.refunds, c, f)
    ensures LeftOn(next.fundings, next.refunds, c, g) == LeftOn(db.fundings, db.refunds, c, g)
  {
    if 0 < amount {
      TurnLeavesOlder(db, c, f, amount, toWallet, gateway(f), next, g);
      TurnLeavesOlder(db, c, f, amount, toWallet, gateway(f), next, g + 1);
      TurnLeavesOlder(db, c, f, amount, toWallet, gateway(f), next, f);
    }
    LeftIsNotNegative(db.fundings, db.refunds, c, g + 1, f);
  }

  /** With nothing in the way the loop gives back what it was asked for, as far as there is anything left. */
  ghost predicate EndsUnblocked(db: Db, c: nat, n: nat, remaining: nat, refunded: int, whole: RefundProgress)
  {
    && n <= |db.fundings|
    && !whole.threw && whole.stuck == 0
    && whole.refunded == refunded + Settlement.Min(remaining, LeftBelow(db.fundings, db.refunds, c, n))
  }

  /** Otherwise it gives back what the fundings newer than the first one in the way have left. */
  ghost predicate EndsAt(
    db: Db, c: nat, n: nat, remaining: nat, refunded: int, gateway: nat -> GatewayOutcome, whole: RefundProgress,
    f: nat)
  {
    && f < n <= |db.fundings|
    && whole.threw
    && whole.refunded == refunded + LeftAbove(db.fundings, db.refunds, c, f, n)
    && whole.stuck == StuckAt(AmountAt(db, c, n, remaining, f), gateway(f))
  }

  /** What the loop tries to give back at `f`. */
  function AmountAt(db: Db, c: nat, n: nat, remaining: nat, f: nat): nat
    requires f < n <= |db.fundings|
  {
    Settlement.Max(0, Settlement.Min(LeftOn(db.fundings, db.refunds, c, f),
                                     remaining - LeftAbove(db.fundings, db.refunds, c, f, n)))
  }

  lemma RestEndsUnblocked(
    db: Db, c: nat, f: nat, n: nat, amount: nat, remaining: nat, refunded: int, toWallet: bool,
    outcome: GatewayOutcome, next: Db, left: nat, given: int, whole: RefundProgress)
    requires n == f + 1 && left == remaining - amount && given == refunded + amount
    requires f < |db.fundings| && NoneOverdrawn(db.fundings, db.refunds)
    requires amount == Settlement.Min(LeftOn(db.fundings, db.refunds, c, f), remaining)
    requires next == if amount == 0 then db else RefundOne(db, f, amount, toWallet, outcome)
    requires EndsUnblocked(next, c, f, left, given, whole)
    ensures EndsUnblocked(db, c, n, remaining, refunded, whole)
  {
    if 0 < amount {
      TurnLeavesOlder(db, c, f, amount, toWallet, outcome, next, f);
    }
    LeftIsNotNegative(db.fundings, db.refunds, c, 0, f);
  }

  lemma RestEndsAt(
    db: Db, c: nat, f: nat, n: nat, amount: nat, remaining: nat, refunded: int, toWallet: bool,
    gateway: nat -> GatewayOutcome, next: Db, left: nat, given: int, whole: RefundProgress, g: nat)
    requires n == f + 1 && left == remaining - amount && given == refunded + amount
    requires g < f < |db.fundings| && NoneOverdrawn(db.fundings, db.refunds)
    requires amount == Settlement.Min(LeftOn(db.fundings, db.refunds, c, f), remaining)
    requires next == if amount == 0 then db else RefundOne(db, f, amount, toWallet, gateway(f))
    requires Blocks(db, c, n, remaining, toWallet, gateway, g)
    requires EndsAt(next, c, f, left, given, gateway, whole, g)
    ensures EndsAt(db, c, n, remaining, refunded, gateway, whole, g)
  {
    SameBlocksAfterTurn(db, c, f, amount, remaining, toWallet, gateway, next, g);
    LeftIsNotNegative(db.fundings, db.refunds, c, g + 1, f);
    assert amount == LeftOn(db.fundings, db.refunds, c, f);
    assert next.fundings == db.fundings;
    assert AmountAt(next, c, f, left, g) == AmountAt(db, c, n, remaining, g);
  }

  lemma NothingAsked(db: Db, c: nat, n: nat, toWallet: bool, gateway: nat -> GatewayOutcome)
    requires n <= |db.fundings| && NoneOverdrawn(db.fundings, db.refunds)
    ensures NothingBlocks(db, c, n, 0, toWallet, gateway)
    ensures 0 <= LeftBelow(db.fundings, db.refunds, c, n)
  {
    LeftIsNotNegative(db.fundings, db.refunds, c, 0, n);
    forall f | 0 <= f < n ensures !Blocks(db, c, n, 0, toWallet, gateway, f) {
      LeftIsNotNegative(db.fundings, db.refunds, c, f + 1, n);
    }
  }

  /** The newest funding is in the way. */
  lemma BlockedAtOnce(
    db: Db, c: nat, n: nat, f: nat, amount: nat, remaining: nat, refunded: int, toWallet: bool,
    gateway: nat -> GatewayOutcome, whole: RefundProgress)
    requires n == f + 1 && n <= |db.fundings| && 0 < remaining && 0 < LeftOn(db.fundings, db.refunds, c, f)
    requires TurnThrows(toWallet, gateway(f)) && whole.threw && whole.refunded == refunded
    requires amount == Settlement.Min(LeftOn(db.fundings, db.refunds, c, f), remaining)
    requires whole.stuck == StuckAt(amount, gateway(f))
    ensures !NothingBlocks(db, c, n, remaining, toWallet, gateway)
    ensures forall g :: BlocksFirst(db, c, n, remaining, toWallet, gateway, g) ==>
                          EndsAt(db, c, n, remaining, refunded, gateway, whole, g)
  {
    assert Blocks(db, c, n, remaining, toWallet, gateway, f);
    forall g: nat | BlocksFirst(db, c, n, remaining, toWallet, gateway, g) ensures g == f {
      assert g < f ==> !Blocks(db, c, n, remaining, toWallet, gateway, f);
    }
  }

  /** The loop in closed form: where it stops, what it has given back by then, and what is stuck. */
  lemma {:induction false} LoopInClosedForm(
    whole: RefundProgress, db: Db, c: nat, n: nat, remaining: nat, refunded: int, count: nat, toWallet: bool,
    gateway: nat -> GatewayOutcome)
    requires n <= |db.fundings| && NoneOverdrawn(db.fundings, db.refunds)
    requires whole == RefundDown(db, c, n, remaining, refunded, count, toWallet, gateway)
    ensures NothingBlocks(db, c, n, remaining, toWallet, gateway) ==>
              EndsUnblocked(db, c, n, remaining, refunded, whole)
    ensures forall f :: BlocksFirst(db, c, n, remaining, toWallet, gateway, f) ==>
                          EndsAt(db, c, n, remaining, refunded, gateway, whole, f)
    decreases n, 0
  {
    if n == 0 {
    } else if remaining == 0 {
      NothingAsked(db, c, n, toWallet, gateway);
    } else {
      var f := n - 1;
      var amount, turn := RefundTurn(whole, db, c, f, remaining, refunded, count, toWallet, gateway);
      TurnAmountIsLeft(db, c, f, remaining);
      if turn.threw {
        BlockedAtOnce(db, c, n, f, amount, remaining, refunded, toWallet, gateway, turn);
      } else {
        LoopStepsOn(whole, db, c, f, n, amount, remaining, refunded, toWallet, gateway, turn);
      }
    }
  }

  lemma NothingBlocksRest(
    db: Db, c: nat, f: nat, n: nat, amount: nat, remaining: nat, toWallet: bool, gateway: nat -> GatewayOutcome,
    next: Db, left: nat)
    requires n == f + 1 && left == remaining - amount && f < |db.fundings| && NoneOverdrawn(db.fundings, db.refunds)
    requires amount == Settlement.Min(LeftOn(db.fundings, db.refunds, c, f), remaining)
    requires next == if amount == 0 then db else RefundOne(db, f, amount, toWallet, gateway(f))
    requires NothingBlocks(db, c, n, remaining, toWallet, gateway)
    ensures NothingBlocks(next, c, f, left, toWallet, gateway)
  {
    forall g: nat | g < f ensures !Blocks(next, c, f, left, toWallet, gateway, g) {
      SameBlocksAfterTurn(db, c, f, amount, remaining, toWallet, gateway, next, g);
    }
  }

  lemma FirstInRest(
    db: Db, c: nat, f: nat, n: nat, amount: nat, remaining: nat, toWallet: bool, gateway: nat -> GatewayOutcome,
    next: Db, left: nat, g: nat)
    requires n == f + 1 && left == remaining - amount && f < |db.fundings| && NoneOverdrawn(db.fundings, db.refunds)
    requires amount == Settlement.Min(LeftOn(db.fundings, db.refunds, c, f), remaining)
    requires next == if amount == 0 then db else RefundOne(db, f, amount, toWallet, gateway(f))
    requires !(0 < amount && TurnThrows(toWallet, gateway(f))) && 0 < remaining
    requires BlocksFirst(db, c, n, remaining, toWallet, gateway, g)
    ensures g < f && BlocksFirst(next, c, f, left, toWallet, gateway, g)
  {
    SameBlocksAfterTurn(db, c, f, amount, remaining, toWallet, gateway, next, g);
    forall h: nat | g < h < f ensures !Blocks(next, c, f, left, toWallet, gateway, h) {
      SameBlocksAfterTurn(db, c, f, amount, remaining, toWallet, gateway, next, h);
      assert !Blocks(db, c, n, remaining, toWallet, gateway, h);
    }
  }

  lemma LoopStepsOn(
    whole: RefundProgress, db: Db, c: nat, f: nat, n: nat, amount: nat, remaining: nat, refunded: int, toWallet: bool,
    gateway: nat -> GatewayOutcome, turn: RefundProgress)
    requires n == f + 1 && f < |db.fundings| && NoneOverdrawn(db.fundings, db.refunds) && amount <= RefundableOn(db, f)
    requires amount == Settlement.Min(LeftOn(db.fundings, db.refunds, c, f), remaining)
    requires turn.db == if amount == 0 then db else RefundOne(db, f, amount, toWallet, gateway(f))
    requires turn.db.fundings == db.fundings
    requires !(0 < amount && TurnThrows(toWallet, gateway(f))) && 0 < remaining
    requires turn.remaining == remaining - amount && turn.refunded == refunded + amount
    requires whole == RefundDown(turn.db, c, f, turn.remaining, turn.refunded, turn.count, toWallet, gateway)
    ensures NothingBlocks(db, c, n, remaining, toWallet, gateway) ==>
              EndsUnblocked(db, c, n, remaining, refunded, whole)
    ensures forall g :: BlocksFirst(db, c, n, remaining, toWallet, gateway, g) ==>
                          EndsAt(db, c, n, remaining, refunded, gateway, whole, g)
    decreases f, 1
  {
    if 0 < amount {
      TurnOverdrawsNone(db, f, amount, toWallet, gateway(f), turn.db);
    }
    LoopInClosedForm(whole, turn.db, c, f, turn.remaining, turn.refunded, turn.count, toWallet, gateway);
    if NothingBlocks(db, c, n, remaining, toWallet, gateway) {
      NothingBlocksRest(db, c, f, n, amount, remaining, toWallet, gateway, turn.db, turn.remaining);
      RestEndsUnblocked(db, c, f, n, amount, remaining, refunded, toWallet, gateway(f), turn.db, turn.remaining,
                        turn.refunded, whole);
    }
    forall g: nat | BlocksFirst(db, c, n, remaining, toWallet, gateway, g)
      ensures EndsAt(db, c, n, remaining, refunded, gateway, whole, g)
    {
      FirstInRest(db, c, f, n, amount, remaining, toWallet, gateway, turn.db, turn.remaining, g);
      RestEndsAt(db, c, f, n, amount, remaining, refunded, toWallet, gateway, turn.db, turn.remaining, turn.refunded,
                 whole, g);
    }
  }

  /** If anything is in the way, something is first. */
  lemma {:induction false} SomethingBlocksFirst(
    db: Db, c: nat, n: nat, remaining: int, toWallet: bool, gateway: nat -> GatewayOutcome, k: nat) returns (f: nat)
    requires k <= n && !(forall g :: 0 <= g < k ==> !Blocks(db, c, n, remaining, toWallet, gateway, g))
    requires forall g :: k <= g < n ==> !Blocks(db, c, n, remaining, toWallet, gateway, g)
    ensures BlocksFirst(db, c, n, remaining, toWallet, gateway, f)
    decreases k
  {
    if Blocks(db, c, n, remaining, toWallet, gateway, k - 1) {
      f := k - 1;
    } else {
      f := SomethingBlocksFirst(db, c, n, remaining, toWallet, gateway, k - 1);
    }
  }

  /**
    What the loop over the first `n` fundings added: rows of those fundings alone, and wherever it took from
    one, every newer funding of the campaign is exhausted.
   */
  ghost predicate TakenNewestFirst(db: Db, c: nat, n: nat, after: Db)
  {
    && after.fundings == db.fundings && db.refunds <= after.refunds
    && (forall i :: |db.refunds| <= i < |after.refunds| ==> after.refunds[i].funding < n)
    && (forall g :: n <= g < |db.fundings| ==> RefundableOn(after, g) == RefundableOn(db, g))
    && (forall i, g :: |db.refunds| <= i < |after.refunds| && after.refunds[i].funding < g < n ==>
          Exhausted(db, after, c, g))
  }

  ghost predicate Exhausted(db: Db, after: Db, c: nat, g: nat)
  {
    g < |db.fundings| && g < |after.fundings| && Refundable(db, c, g) ==> RefundableOn(after, g) == 0
  }

  lemma TurnTakes(db: Db, f: nat, amount: nat, toWallet: bool, outcome: GatewayOutcome, next: Db, g: nat)
    requires f < |db.fundings| && g < |db.fundings| && next == RefundOne(db, f, amount, toWallet, outcome)
    ensures |next.refunds| == |db.refunds| + 1 && db.refunds <= next.refunds && next.refunds[|db.refunds|].funding == f
    ensures g < |next.fundings|
    ensures g != f ==> RefundableOn(next, g) == RefundableOn(db, g)
    ensures !TurnThrows(toWallet, outcome) && amount == RefundableOn(db, f) ==> RefundableOn(next, f) == 0
  {
    SumAppend(db.refunds, next.refunds[|db.refunds|], RefundOn(g));
    SumAppend(db.refunds, next.refunds[|db.refunds|], RefundOn(f));
  }

  /** The rest of the loop keeps what the turn left of the newest funding. */
  lemma TurnThenRest(
    db: Db, c: nat, f: nat, amount: nat, remaining: nat, toWallet: bool, outcome: GatewayOutcome, next: Db, after: Db)
    requires f < |db.fundings| && !(0 < amount && TurnThrows(toWallet, outcome))
    requires amount == Settlement.Max(0, TurnAmount(db, c, f, remaining)) && amount <= remaining && 0 < remaining
    requires next == if amount == 0 then db else RefundOne(db, f, amount, toWallet, outcome)
    requires TakenNewestFirst(next, c, f, after)
    requires amount == remaining ==> after == next
    ensures TakenNewestFirst(db, c, f + 1, after)
  {
    forall g | 0 <= g < |db.fundings| ensures g != f ==> RefundableOn(next, g) == RefundableOn(db, g) {
      if 0 < amount {
        TurnTakes(db, f, amount, toWallet, outcome, next, g);
      }
    }
    forall i, g | |db.refunds| <= i < |after.refunds| && after.refunds[i].funding < g < f + 1
      ensures Exhausted(db, after, c, g)
    {
      if 0 < amount {
        TurnTakes(db, f, amount, toWallet, outcome, next, f);
      }
      if g < f {
        assert Exhausted(next, after, c, g);
      } else {
        assert RefundableOn(after, f) == RefundableOn(next, f);
      }
    }
  }

  lemma {:induction false} LoopTakesNewestFirst(
    whole: RefundProgress, db: Db, c: nat, n: nat, remaining: int, refunded: int, count: nat, toWallet: bool,
    gateway: nat -> GatewayOutcome)
    requires n <= |db.fundings|
    requires whole == RefundDown(db, c, n, remaining, refunded, count, toWallet, gateway)
    ensures remaining <= 0 ==> whole.db == db
    ensures TakenNewestFirst(db, c, n, whole.db)
    decreases n
  {
    if 0 < n && 0 < remaining {
      var f := n - 1;
      var amount, turn := RefundTurn(whole, db, c, f, remaining, refunded, count, toWallet, gateway);
      if turn.threw {
        forall g | 0 <= g < |db.fundings| ensures g != f ==> RefundableOn(turn.db, g) == RefundableOn(db, g) {
          TurnTakes(db, f, amount, toWallet, gateway(f), turn.db, g);
        }
      } else {
        LoopTakesNewestFirst(whole, turn.db, c, f, turn.remaining, turn.refunded, turn.count, toWallet, gateway);
        TurnThenRest(db, c, f, amount, remaining, toWallet, gateway(f), turn.db, whole.db);
      }
    }
  }

  /**
    A refund takes the newest fundings first: wherever this call took from a funding, or failed to, every
    newer succeeded funding of the campaign has nothing left to give back.
   */
  lemma RefundTakesNewestFirst(db: Db, c: nat, gateway: nat -> GatewayOutcome, after: Db, i: nat, newer: nat)
    requires after == Step(db, RefundUnspent(c, gateway)).db
    requires |db.refunds| <= i < |after.refunds| && after.refunds[i].funding < newer < |db.fundings|
    requires Refundable(db, c, newer)
    ensures after.fundings == db.fundings && RefundableOn(after, newer) == 0
  {
    LoopTakesNewestFirst(RefundRun(db, c, gateway), db, c, |db.fundings|, RefundableMinor(db, c), 0, 0,
                         db.campaigns[c].currency == WALLET_CURRENCY, gateway);
    assert Exhausted(db, after, c, newer);
  }
}
