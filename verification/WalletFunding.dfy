/**
  Spending one brand's wallet from many requests at once (src/modules/payments/application/funding.service.ts:101-153).

  Each call of `fundFromWallet` is a task of the keyed lock. While it runs, two queries sum the wallet's
  credits and debits, in either order; then it writes the funding row and posts the debit, one step each.
  A funding row's id is the number of rows before it. In between, other brands' tasks, top-ups and budget
  returns run freely, and the posting may throw.
 */
module WalletSpending {
  import opened Outcomes
  import opened Sums
  import opened Money
  import opened Entitlement
  import opened LedgerTransactions
  import opened Ledger
  import opened KeyedLocks

  const WALLET_CURRENCY := "USD"

  /** What a waiting or running call carries: its key in the lock is the brand. */
  datatype Call = Call(amount: nat, fee: nat, point: Point)

  /** While the balance is read, what each of its two queries has answered. */
  datatype Point =
    | ReadingBalance(credited: Option<int>, debited: Option<int>)
    | CreatingRow
    | PostingDebit(funding: nat)

  const Unread := ReadingBalance(None, None)

  datatype State = State(lock: Lock, works: seq<Call>, fundings: nat, journal: seq<JournalLine>)

  datatype Event =
    | Request(organization: nat, amount: int, feeBps: Bps)
    | Begin(task: nat)
    | Query(task: nat, direction: Direction)
    | Proceed(task: nat, postingThrows: bool)
    | End(task: nat)
    | Receive(organization: nat, received: nat, topUp: bool)

  function Wallet(organization: nat): AccountKey
  {
    OwnerAccount(OrganizationWallet, organization, WALLET_CURRENCY)
  }

  function WalletBalance(state: State, organization: nat): int
  {
    Balance(state.journal, Wallet(organization))
  }

  function LockStep(state: State, event: KeyedLocks.Event): State
    requires Enabled(state.lock, event)
  {
    state.(lock := Step(state.lock, event))
  }

  predicate Active(state: State, t: nat)
  {
    t < |state.lock.tasks| && t < |state.works| && state.lock.tasks[t].phase == Running
  }

  function Needed(state: State, t: nat): int
    requires t < |state.works|
  {
    state.works[t].amount + state.works[t].fee
  }

  function At(state: State, t: nat, point: Point): State
    requires t < |state.works|
  {
    state.(works := state.works[t := state.works[t].(point := point)])
  }

  /** One of the two sums comes back; it is the sum at this moment. */
  function QueryStep(state: State, t: nat, direction: Direction): State
    requires Active(state, t) && state.works[t].point.ReadingBalance?
  {
    var sum := SideTotal(state.journal, Wallet(state.lock.tasks[t].key), direction);
    At(state, t, if direction == Credit then state.works[t].point.(credited := Some(sum))
                 else state.works[t].point.(debited := Some(sum)))
  }

  /** One step of the work inside the lock. */
  function WorkStep(state: State, t: nat, throws: bool): State
    requires Active(state, t)
  {
    var organization := state.lock.tasks[t].key;
    var work := state.works[t];
    match work.point
    case ReadingBalance(credited, debited) =>
      if credited.None? || debited.None? then state
      else if credited.value - debited.value < Needed(state, t) then LockStep(state, KeyedLocks.Finish(t, false))
      else At(state, t, CreatingRow)
    case CreatingRow => At(state.(fundings := state.fundings + 1), t, PostingDebit(state.fundings))
    case PostingDebit(funding) =>
      if throws then LockStep(state, KeyedLocks.Finish(t, false))
      else
        var postings := WalletFundingPostings(organization, Money(work.amount, WALLET_CURRENCY),
                                              Money(work.fee, WALLET_CURRENCY));
        var lines := Journalled(TransactionType.WalletFunding, Some(RowReference(funding)), postings);
        LockStep(state.(journal := state.journal + lines), KeyedLocks.Finish(t, true))
  }

  function CreditPostings(organization: nat, amount: nat, topUp: bool): seq<Posting>
  {
    if topUp then TopUpPostings(organization, Money(amount, WALLET_CURRENCY))
    else ReturnPostings(organization, Money(amount, WALLET_CURRENCY))
  }

  /** Requests for a non-positive amount are refused before they reach the lock. */
  function Apply(state: State, event: Event): State
  {
    match event
    case Request(organization, amount, feeBps) =>
      if amount <= 0 then state
      else
        assert 0 <= FeeMinor(amount, feeBps) by { FeeWithinBudget(amount, feeBps); }
        LockStep(state.(works := state.works + [Call(amount, FeeMinor(amount, feeBps), Unread)]),
                 Arrive(organization))
    case Begin(t) => if Enabled(state.lock, Start(t)) then LockStep(state, Start(t)) else state
    case Query(t, direction) =>
      if Active(state, t) && state.works[t].point.ReadingBalance? then QueryStep(state, t, direction) else state
    case Proceed(t, throws) => if Active(state, t) then WorkStep(state, t, throws) else state
    case End(t) => if Enabled(state.lock, CleanUp(t)) then LockStep(state, CleanUp(t)) else state
    case Receive(organization, amount, topUp) =>
      var txType := if topUp then WalletTopUp else WalletReturn;
      state.(journal := state.journal + Journalled(txType, None, CreditPostings(organization, amount, topUp)))
  }

  function Run(events: seq<Event>): State
  {
    if events == [] then State(Idle, [], 0, [])
    else Apply(Run(events[..|events| - 1]), events[|events| - 1])
  }

  // The invariant.

  /** A task past its check still has its money in the wallet, because no one else may spend it. */
  ghost predicate Covered(state: State, t: nat)
    requires t < |state.works| && t < |state.lock.tasks|
  {
    Active(state, t) && !state.works[t].point.ReadingBalance? ==>
      Needed(state, t) <= WalletBalance(state, state.lock.tasks[t].key)
  }

  /** Credits read are at most the credits by now, debits read are the debits still: only this task may add any. */
  ghost predicate ReadOk(state: State, t: nat)
    requires t < |state.works| && t < |state.lock.tasks|
  {
    var point := state.works[t].point;
    Active(state, t) && point.ReadingBalance? ==>
      && (point.credited.Some? ==>
            point.credited.value <= SideTotal(state.journal, Wallet(state.lock.tasks[t].key), Credit))
      && (point.debited.Some? ==>
            point.debited.value == SideTotal(state.journal, Wallet(state.lock.tasks[t].key), Debit))
  }

  ghost predicate Inv(state: State)
  {
    && KeyedLocks.Inv(state.lock)
    && |state.works| == |state.lock.tasks|
    && (forall t :: 0 <= t < |state.works| ==> Covered(state, t) && ReadOk(state, t))
    && (forall t :: 0 <= t < |state.works| && state.lock.tasks[t].phase == Waiting ==> state.works[t].point == Unread)
    && forall organization: nat :: 0 <= WalletBalance(state, organization)
  }

  lemma SameJournal(before: State, after: State)
    requires before.journal == after.journal
    ensures forall organization: nat :: WalletBalance(after, organization) == WalletBalance(before, organization)
  {
  }

  lemma LockStepKeeps(state: State, event: KeyedLocks.Event)
    requires Inv(state) && Enabled(state.lock, event) && !event.Arrive?
    ensures Inv(LockStep(state, event))
  {
    StepKeeps(state.lock, event);
    var after := LockStep(state, event);
    SameJournal(state, after);
    forall t | 0 <= t < |after.works| ensures Covered(after, t) && ReadOk(after, t) {
      assert Covered(state, t) && ReadOk(state, t);
    }
  }

  lemma RequestKeeps(state: State, organization: nat, work: Call)
    requires Inv(state) && work.point == Unread
    ensures Inv(LockStep(state.(works := state.works + [work]), Arrive(organization)))
  {
    StepKeeps(state.lock, Arrive(organization));
    var after := LockStep(state.(works := state.works + [work]), Arrive(organization));
    SameJournal(state, after);
    forall t | 0 <= t < |after.works| ensures Covered(after, t) && ReadOk(after, t) {
      assert t < |state.works| ==> Covered(state, t) && ReadOk(state, t);
    }
  }

  /** A credit of any wallet leaves every check that passed still passing. */
  lemma CreditKeeps(state: State, organization: nat, amount: nat, topUp: bool)
    requires Inv(state)
    ensures Inv(Apply(state, Receive(organization, amount, topUp)))
  {
    var after := Apply(state, Receive(organization, amount, topUp));
    var txType := if topUp then WalletTopUp else WalletReturn;
    forall other: nat
      ensures SideTotal(state.journal, Wallet(other), Credit) <= SideTotal(after.journal, Wallet(other), Credit)
      ensures SideTotal(state.journal, Wallet(other), Debit) == SideTotal(after.journal, Wallet(other), Debit)
      ensures WalletBalance(state, other) <= WalletBalance(after, other)
    {
      CreditEffect(state.journal, txType, organization, amount, topUp, other);
    }
    forall t | 0 <= t < |after.works| ensures Covered(after, t) && ReadOk(after, t) {
      assert Covered(state, t) && ReadOk(state, t);
    }
  }

  lemma CreditEffect(
    journal: seq<JournalLine>, txType: TransactionType, organization: nat, amount: nat, topUp: bool, other: nat)
    ensures
      var after := journal + Journalled(txType, None, CreditPostings(organization, amount, topUp));
      && SideTotal(after, Wallet(other), Credit)
         == SideTotal(journal, Wallet(other), Credit) + (if other == organization then amount else 0)
      && SideTotal(after, Wallet(other), Debit) == SideTotal(journal, Wallet(other), Debit)
  {
    PostingEffect(journal, txType, None, CreditPostings(organization, amount, topUp), Wallet(other), Credit);
    PostingEffect(journal, txType, None, CreditPostings(organization, amount, topUp), Wallet(other), Debit);
  }

  lemma DebitEffect(journal: seq<JournalLine>, funding: nat, organization: nat, amount: nat, fee: nat, other: nat)
    ensures
      var postings := WalletFundingPostings(organization, Money(amount, WALLET_CURRENCY), Money(fee, WALLET_CURRENCY));
      var after := journal + Journalled(TransactionType.WalletFunding, Some(RowReference(funding)), postings);
      && SideTotal(after, Wallet(other), Credit) == SideTotal(journal, Wallet(other), Credit)
      && SideTotal(after, Wallet(other), Debit)
         == SideTotal(journal, Wallet(other), Debit) + (if other == organization then amount + fee else 0)
  {
    var postings := WalletFundingPostings(organization, Money(amount, WALLET_CURRENCY), Money(fee, WALLET_CURRENCY));
    var reference := Some(RowReference(funding));
    PostingEffect(journal, TransactionType.WalletFunding, reference, postings, Wallet(other), Credit);
    PostingEffect(journal, TransactionType.WalletFunding, reference, postings, Wallet(other), Debit);
  }

  /** No other task of the same brand is running. */
  lemma OnlyRunner(lock: Lock, t: nat, u: nat)
    requires KeyedLocks.Inv(lock) && t < |lock.tasks| && u < |lock.tasks| && t != u
    requires lock.tasks[t].phase == Running && lock.tasks[u].phase == Running
    ensures lock.tasks[t].key != lock.tasks[u].key
  {
    assert TaskOk(lock, t) && TaskOk(lock, u);
  }

  lemma PostKeeps(state: State, t: nat)
    requires Inv(state) && Active(state, t) && state.works[t].point.PostingDebit?
    ensures Inv(WorkStep(state, t, false))
  {
    var organization := state.lock.tasks[t].key;
    var work := state.works[t];
    var after := WorkStep(state, t, false);
    StepKeeps(state.lock, KeyedLocks.Finish(t, true));
    assert Covered(state, t);
    forall other: nat
      ensures SideTotal(after.journal, Wallet(other), Credit) == SideTotal(state.journal, Wallet(other), Credit)
      ensures SideTotal(after.journal, Wallet(other), Debit)
              == SideTotal(state.journal, Wallet(other), Debit)
                 + (if other == organization then Needed(state, t) else 0)
      ensures WalletBalance(after, other)
              == WalletBalance(state, other) - if other == organization then Needed(state, t) else 0
    {
      DebitEffect(state.journal, work.point.funding, organization, work.amount, work.fee, other);
    }
    forall u | 0 <= u < |after.works| ensures Covered(after, u) && ReadOk(after, u) {
      assert Covered(state, u) && ReadOk(state, u);
      if u != t && Active(after, u) {
        OnlyRunner(state.lock, t, u);
      }
    }
  }

  /** A passed check reads credits that are there by now and debits that are still all there are. */
  lemma PointKeeps(state: State, t: nat, point: Point)
    requires Inv(state) && Active(state, t)
    requires point.ReadingBalance? || Needed(state, t) <= WalletBalance(state, state.lock.tasks[t].key)
    requires point.ReadingBalance? ==> ReadOk(At(state, t, point), t)
    ensures Inv(At(state, t, point))
  {
    var after := At(state, t, point);
    SameJournal(state, after);
    forall u | 0 <= u < |after.works| ensures Covered(after, u) && ReadOk(after, u) {
      assert Covered(state, u) && ReadOk(state, u);
    }
  }

  /** The invariant does not read the funding rows. */
  lemma RowsOutside(state: State, fundings: nat)
    requires Inv(state)
    ensures Inv(state.(fundings := fundings))
  {
    var after := state.(fundings := fundings);
    SameJournal(state, after);
    forall t | 0 <= t < |after.works| ensures Covered(after, t) && ReadOk(after, t) {
      assert Covered(state, t) && ReadOk(state, t);
    }
  }

  lemma QueryKeeps(state: State, t: nat, direction: Direction)
    requires Inv(state) && Active(state, t) && state.works[t].point.ReadingBalance?
    ensures Inv(QueryStep(state, t, direction))
  {
    assert ReadOk(state, t);
    PointKeeps(state, t, QueryStep(state, t, direction).works[t].point);
  }

  lemma WorkKeeps(state: State, t: nat, throws: bool)
    requires Inv(state) && Active(state, t)
    ensures Inv(WorkStep(state, t, throws))
  {
    assert Covered(state, t) && ReadOk(state, t);
    match state.works[t].point
    case ReadingBalance(credited, debited) =>
      if credited.Some? && debited.Some? {
        if credited.value - debited.value < Needed(state, t) {
          LockStepKeeps(state, KeyedLocks.Finish(t, false));
        } else {
          PointKeeps(state, t, CreatingRow);
        }
      }
    case CreatingRow =>
      PointKeeps(state, t, PostingDebit(state.fundings));
      RowsOutside(At(state, t, PostingDebit(state.fundings)), state.fundings + 1);
    case PostingDebit(_) =>
      if throws { LockStepKeeps(state, KeyedLocks.Finish(t, false)); } else { PostKeeps(state, t); }
  }

  lemma {:induction false} RunKeeps(events: seq<Event>)
    ensures Inv(Run(events))
  {
    if events == [] {
      forall organization: nat ensures WalletBalance(Run([]), organization) == 0 {
      }
    } else {
      var before, last := Run(events[..|events| - 1]), events[|events| - 1];
      RunKeeps(events[..|events| - 1]);
      match last
      case Request(organization, amount, feeBps) =>
        if 0 < amount {
          FeeWithinBudget(amount, feeBps);
          RequestKeeps(before, organization, Call(amount, FeeMinor(amount, feeBps), Unread));
        }
      case Begin(t) => if Enabled(before.lock, Start(t)) { LockStepKeeps(before, Start(t)); }
      case Query(t, direction) =>
        if Active(before, t) && before.works[t].point.ReadingBalance? { QueryKeeps(before, t, direction); }
      case Proceed(t, throws) => if Active(before, t) { WorkKeeps(before, t, throws); }
      case End(t) => if Enabled(before.lock, CleanUp(t)) { LockStepKeeps(before, CleanUp(t)); }
      case Receive(organization, amount, topUp) => CreditKeeps(before, organization, amount, topUp);
    }
  }

  /** However calls interleave, no brand ever spends more than its wallet holds. */
  lemma WalletNeverNegative(events: seq<Event>, organization: nat)
    ensures 0 <= WalletBalance(Run(events), organization)
  {
    RunKeeps(events);
  }

  /** A call that has passed its balance check can still pay when it comes to post. */
  lemma CheckStaysGood(events: seq<Event>, t: nat)
    requires Active(Run(events), t) && !Run(events).works[t].point.ReadingBalance?
    ensures t < |Run(events).works|
    ensures Needed(Run(events), t) <= WalletBalance(Run(events), Run(events).lock.tasks[t].key)
  {
    RunKeeps(events);
    assert Covered(Run(events), t);
  }

  // What the wallet is debited for.

  predicate HasPaid(state: State, t: nat)
  {
    t < |state.lock.tasks|
    && (state.lock.tasks[t].phase == Finished(true) || state.lock.tasks[t].phase == Gone(true))
  }

  /** What a call has paid from this brand's wallet: amount and fee once it has ended well. */
  function PaidBy(state: State, organization: nat, t: nat): int
  {
    if HasPaid(state, t) && state.lock.tasks[t].key == organization && t < |state.works|
    then state.works[t].amount + state.works[t].fee else 0
  }

  function PaidByFirst(state: State, organization: nat, n: nat): int
  {
    if n == 0 then 0 else PaidByFirst(state, organization, n - 1) + PaidBy(state, organization, n - 1)
  }

  lemma {:induction false} OneCallMoves(before: State, after: State, organization: nat, t: nat, n: nat)
    requires forall u: nat :: u < n && u != t ==> PaidBy(after, organization, u) == PaidBy(before, organization, u)
    ensures PaidByFirst(after, organization, n) - PaidByFirst(before, organization, n)
            == if t < n then PaidBy(after, organization, t) - PaidBy(before, organization, t) else 0
  {
    if n > 0 {
      OneCallMoves(before, after, organization, t, n - 1);
    }
  }

  ghost predicate DebitsArePaid(state: State)
  {
    forall organization: nat ::
      SideTotal(state.journal, Wallet(organization), Debit) == PaidByFirst(state, organization, |state.works|)
  }

  /** A step that debits nothing and after which nobody has newly paid. */
  lemma NobodyPays(before: State, after: State)
    requires DebitsArePaid(before) && |before.works| <= |after.works|
    requires forall organization: nat ::
               SideTotal(after.journal, Wallet(organization), Debit)
               == SideTotal(before.journal, Wallet(organization), Debit)
    requires forall organization: nat, t: nat :: PaidBy(after, organization, t) == PaidBy(before, organization, t)
    requires |after.works| <= |before.works| + 1
    ensures DebitsArePaid(after)
  {
    forall organization: nat
      ensures SideTotal(after.journal, Wallet(organization), Debit)
          == PaidByFirst(after, organization, |after.works|)
    {
      OneCallMoves(before, after, organization, |before.works|, |before.works|);
      assert PaidBy(before, organization, |before.works|) == 0;
    }
  }

  lemma PhaseMoves(before: State, after: State, event: KeyedLocks.Event)
    requires DebitsArePaid(before) && Inv(before) && Enabled(before.lock, event) && after == LockStep(before, event)
    requires !event.Arrive? && !(event.Finish? && event.ok)
    ensures DebitsArePaid(after)
  {
    NobodyPays(before, after);
  }

  lemma PayingPays(state: State, t: nat)
    requires DebitsArePaid(state) && Inv(state) && Active(state, t) && state.works[t].point.PostingDebit?
    ensures DebitsArePaid(WorkStep(state, t, false))
  {
    var work, owner, after := state.works[t], state.lock.tasks[t].key, WorkStep(state, t, false);
    forall organization: nat
      ensures SideTotal(after.journal, Wallet(organization), Debit)
          == PaidByFirst(after, organization, |after.works|)
    {
      DebitEffect(state.journal, work.point.funding, owner, work.amount, work.fee, organization);
      OneCallMoves(state, after, organization, t, |state.works|);
    }
  }

  lemma WorkPays(state: State, t: nat, throws: bool)
    requires DebitsArePaid(state) && Inv(state) && Active(state, t)
    ensures DebitsArePaid(WorkStep(state, t, throws))
  {
    if state.works[t].point.PostingDebit? && !throws {
      PayingPays(state, t);
    } else {
      NobodyPays(state, WorkStep(state, t, throws));
    }
  }

  lemma ReceivingPays(state: State, organization: nat, amount: nat, topUp: bool)
    requires DebitsArePaid(state)
    ensures DebitsArePaid(Apply(state, Receive(organization, amount, topUp)))
  {
    var after := Apply(state, Receive(organization, amount, topUp));
    forall other: nat
      ensures SideTotal(after.journal, Wallet(other), Debit) == SideTotal(state.journal, Wallet(other), Debit)
    {
      CreditEffect(state.journal, if topUp then WalletTopUp else WalletReturn, organization, amount, topUp, other);
    }
    NobodyPays(state, after);
  }

  lemma EventPays(state: State, event: Event)
    requires DebitsArePaid(state) && Inv(state)
    ensures DebitsArePaid(Apply(state, event))
  {
    match event
    case Proceed(t, throws) => if Active(state, t) { WorkPays(state, t, throws); }
    case Receive(organization, amount, topUp) => ReceivingPays(state, organization, amount, topUp);
    case Begin(t) => if Enabled(state.lock, Start(t)) { PhaseMoves(state, Apply(state, event), Start(t)); }
    case End(t) => if Enabled(state.lock, CleanUp(t)) { PhaseMoves(state, Apply(state, event), CleanUp(t)); }
    case Request(_, _, _) => NobodyPays(state, Apply(state, event));
    case Query(_, _) => NobodyPays(state, Apply(state, event));
  }

  lemma {:induction false} EveryRunPays(events: seq<Event>)
    ensures DebitsArePaid(Run(events))
  {
    if events != [] {
      EveryRunPays(events[..|events| - 1]);
      RunKeeps(events[..|events| - 1]);
      EventPays(Run(events[..|events| - 1]), events[|events| - 1]);
    }
  }

  /**
    However calls interleave, a brand's wallet has been debited by exactly the amounts and fees of its calls that
    ended well, and by nothing else.
   */
  lemma WalletPaysForItsCalls(events: seq<Event>, organization: nat)
    ensures SideTotal(Run(events).journal, Wallet(organization), Debit)
            == PaidByFirst(Run(events), organization, |Run(events).works|)
  {
    EveryRunPays(events);
  }
}
