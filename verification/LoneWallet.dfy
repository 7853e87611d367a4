/**
  A wallet payment that nobody interrupts: the steps of one call, taken in a row inside its lock, come to exactly
  what the call does in one step.
 */
module LoneWallet {
  import opened Outcomes
  import opened Money
  import opened Entitlement
  import opened LedgerTransactions
  import opened Ledger
  import opened Payments
  import KeyedLocks
  import W = WalletSpending

  /** No earlier call of the brand is under way. */
  ghost predicate Quiet(state: W.State, organization: nat)
  {
    W.Inv(state) && forall u :: 0 <= u < |state.lock.tasks| && state.lock.tasks[u].key == organization ==>
      KeyedLocks.Done(state.lock.tasks[u])
  }

  function Opposite(direction: Direction): Direction
  {
    if direction == Credit then Debit else Credit
  }

  /** The call arrives and starts. */
  function Entered(state: W.State, organization: nat, amount: int, feeBps: Bps): W.State
  {
    W.Apply(W.Apply(state, W.Request(organization, amount, feeBps)), W.Begin(|state.works|))
  }

  /** Its two sums come back, in either order. */
  function BalanceRead(state: W.State, t: nat, first: Direction): W.State
  {
    W.Apply(W.Apply(state, W.Query(t, first)), W.Query(t, Opposite(first)))
  }

  /** Check, row and posting, as far as it gets. */
  function Worked(state: W.State, t: nat, throws: bool): W.State
  {
    W.Apply(W.Apply(W.Apply(state, W.Proceed(t, false)), W.Proceed(t, false)), W.Proceed(t, throws))
  }

  /** One whole call with nothing in between. */
  function LoneCall(state: W.State, organization: nat, amount: int, feeBps: Bps, first: Direction, throws: bool)
    : W.State
  {
    var t := |state.works|;
    W.Apply(Worked(BalanceRead(Entered(state, organization, amount, feeBps), t, first), t, throws), W.End(t))
  }

  lemma EntersAtOnce(state: W.State, organization: nat, amount: nat, feeBps: Bps, entered: W.State)
    requires Quiet(state, organization) && 0 < amount && entered == Entered(state, organization, amount, feeBps)
    ensures W.Active(entered, |state.works|) && |entered.works| == |state.works| + 1
    ensures 0 <= FeeMinor(amount, feeBps)
    ensures entered.works[|state.works|] == W.Call(amount, FeeMinor(amount, feeBps), W.Unread)
    ensures entered.lock.tasks[|state.works|].key == organization
    ensures entered.journal == state.journal && entered.fundings == state.fundings
  {
    FeeWithinBudget(amount, feeBps);
    assert KeyedLocks.TailOk(state.lock, organization);
  }

  lemma ReadsTheBalance(entered: W.State, t: nat, first: Direction, read: W.State)
    requires W.Active(entered, t) && entered.works[t].point == W.Unread && read == BalanceRead(entered, t, first)
    ensures
      var wallet := W.Wallet(entered.lock.tasks[t].key);
      read == W.At(entered, t, W.ReadingBalance(Some(SideTotal(entered.journal, wallet, Credit)),
                                                Some(SideTotal(entered.journal, wallet, Debit))))
  {
    var once := W.Apply(entered, W.Query(t, first));
    assert W.Active(once, t) && once.works[t].point.ReadingBalance?;
    assert read.works == entered.works[t := read.works[t]];
  }

  /** A call the wallet does not cover finishes there; the steps after that are not its own any more. */
  lemma StopsUncovered(read: W.State, t: nat, throws: bool, worked: W.State)
    requires W.Active(read, t) && worked == Worked(read, t, throws)
    requires read.works[t].point.ReadingBalance?
    requires read.works[t].point.credited.Some? && read.works[t].point.debited.Some?
    requires read.works[t].point.credited.value - read.works[t].point.debited.value < W.Needed(read, t)
    ensures worked == read.(lock := KeyedLocks.SetPhase(read.lock, t, KeyedLocks.Finished(false)))
  {
    var refused := W.Apply(read, W.Proceed(t, false));
    assert !W.Active(refused, t);
  }

  function PaymentLines(work: W.Call, organization: nat, funding: nat): seq<JournalLine>
  {
    Journalled(TransactionType.WalletFunding, Some(RowReference(funding)),
               WalletFundingPostings(organization, Money(work.amount, "USD"), Money(work.fee, "USD")))
  }

  lemma PaysCovered(read: W.State, t: nat, throws: bool, worked: W.State)
    requires W.Active(read, t) && worked == Worked(read, t, throws)
    requires read.works[t].point.ReadingBalance?
    requires read.works[t].point.credited.Some? && read.works[t].point.debited.Some?
    requires W.Needed(read, t) <= read.works[t].point.credited.value - read.works[t].point.debited.value
    ensures worked.fundings == read.fundings + 1
    ensures worked.lock == KeyedLocks.SetPhase(read.lock, t, KeyedLocks.Finished(!throws))
    ensures worked.journal == read.journal + if throws then [] else
                              PaymentLines(read.works[t], read.lock.tasks[t].key, read.fundings)
  {
    var checked := W.Apply(read, W.Proceed(t, false));
    assert checked == W.At(read, t, W.CreatingRow);
    var stored := W.Apply(checked, W.Proceed(t, false));
    assert W.Active(stored, t) && stored.works[t].point == W.PostingDebit(read.fundings);
  }

  lemma Leaves(worked: W.State, t: nat, ok: bool, after: W.State)
    requires t < |worked.lock.tasks| && worked.lock.tasks[t].phase == KeyedLocks.Finished(ok)
    requires after == W.Apply(worked, W.End(t))
    ensures after.journal == worked.journal && after.fundings == worked.fundings
    ensures t < |after.lock.tasks| && after.lock.tasks[t].phase == KeyedLocks.Gone(ok)
  {
  }

  /** How a lone call ends, told by the balance it finds. */
  lemma LoneCallEnds(
    state: W.State, organization: nat, amount: nat, fee: nat, feeBps: Bps, first: Direction, throws: bool,
    after: W.State)
    requires Quiet(state, organization) && 0 < amount && fee == FeeMinor(amount, feeBps)
    requires after == LoneCall(state, organization, amount, feeBps, first, throws)
    ensures
      var covered := amount + fee <= Balance(state.journal, W.Wallet(organization));
      && |state.works| < |after.lock.tasks|
      && after.lock.tasks[|state.works|].phase == KeyedLocks.Gone(covered && !throws)
      && after.fundings == state.fundings + (if covered then 1 else 0)
      && after.journal == state.journal + if covered && !throws then
           PaymentLines(W.Call(amount, fee, W.Unread), organization, state.fundings) else []
  {
    var t := |state.works|;
    var entered := Entered(state, organization, amount, feeBps);
    EntersAtOnce(state, organization, amount, feeBps, entered);
    var read := BalanceRead(entered, t, first);
    ReadsTheBalance(entered, t, first, read);
    var worked := Worked(read, t, throws);
    if Balance(state.journal, W.Wallet(organization)) < amount + fee {
      StopsUncovered(read, t, throws, worked);
      Leaves(worked, t, false, after);
    } else {
      PaysCovered(read, t, throws, worked);
      Leaves(worked, t, !throws, after);
    }
  }

  /**
    On its own a call does what `FundFromWallet` does: it is refused or goes through alike, stores a row alike,
    and posts the same lines, or none, onto the same ledger.
   */
  lemma LoneCallIsTheStep(
    state: W.State, db: Db, c: nat, amount: nat, feeBps: Bps, id: nat, first: Direction, throws: bool,
    after: W.State, response: Response)
    requires c < |db.campaigns| && db.campaigns[c].currency == "USD" && 0 < amount
    requires Quiet(state, db.campaigns[c].organization)
    requires state.journal == db.journal && state.fundings == |db.fundings|
    requires forall i :: 0 <= i < |db.fundings| ==> db.fundings[i].reference != FromWallet(id)
    requires after == LoneCall(state, db.campaigns[c].organization, amount, feeBps, first, throws)
    requires response == FundFromWalletStep(db, c, amount, feeBps, id, throws)
    ensures after.journal == response.db.journal && after.fundings == |response.db.fundings|
    ensures |state.works| < |after.lock.tasks|
    ensures after.lock.tasks[|state.works|].phase == KeyedLocks.Gone(response.outcome == Done)
  {
    FeeWithinBudget(amount, feeBps);
    LoneCallEnds(state, db.campaigns[c].organization, amount, FeeMinor(amount, feeBps), feeBps, first, throws, after);
  }

  /** A call for nothing never reaches the lock. */
  lemma NothingAskedNothingDone(
    state: W.State, organization: nat, amount: int, feeBps: Bps, first: Direction, throws: bool)
    requires W.Inv(state) && amount <= 0
    ensures LoneCall(state, organization, amount, feeBps, first, throws) == state
  {
  }
}
