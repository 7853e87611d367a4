/**
  What interleaved settlement passes can and cannot do to a budget, and a schedule in which a rollback
  loses its race (src/modules/payments/application/earnings-settlement.service.ts:143-189, 228-256).
 */
module ClaimRaces {
  import opened Outcomes
  import opened Sums
  import opened EarningTable
  import opened Settlement
  import opened ClaimInterleaving

  // Each pass keeps to the budget it started with.

  function PostedBy(r: nat): LedgerPosting -> int
  {
    (posting: LedgerPosting) => if posting.owner == r then posting.amount else 0
  }

  /** What one pass has credited. */
  function SpentBy(state: State, r: nat): int
  {
    Sum(state.postings, PostedBy(r))
  }

  ghost predicate WithinAllowance(state: State, r: nat)
    requires r < |state.runners|
  {
    var runner := state.runners[r];
    && SpentBy(state, r) == runner.allowance - runner.budget
    && (runner.budget == runner.allowance || 0 <= runner.budget)
    && (runner.stage == Posting ==> InTurn(runner) && 0 < CreditOf(runner))
  }

  ghost predicate AllWithin(state: State)
  {
    && (forall r :: 0 <= r < |state.runners| ==> WithinAllowance(state, r))
    && (forall i :: 0 <= i < |state.postings| ==> state.postings[i].owner < |state.runners|)
  }

  lemma BeginWithin(state: State, pass: Pass, spendable: int)
    requires AllWithin(state)
    ensures AllWithin(Step(state, Begin(pass, spendable)))
  {
    var after := Step(state, Begin(pass, spendable));
    SumZero(state.postings, PostedBy(|state.runners|));
    forall r | 0 <= r < |after.runners| ensures WithinAllowance(after, r) {
      assert r < |state.runners| ==> WithinAllowance(state, r);
    }
  }

  /** A statement that posts nothing leaves what was spent and what is left. */
  lemma QuietWithin(state: State, r: nat, after: State)
    requires AllWithin(state) && r < |state.runners|
    requires after.postings == state.postings && |after.runners| == |state.runners|
    requires forall q :: 0 <= q < |state.runners| && q != r ==> after.runners[q] == state.runners[q]
    requires after.runners[r].allowance == state.runners[r].allowance
    requires after.runners[r].budget == state.runners[r].budget
    requires after.runners[r].stage == Posting ==> InTurn(after.runners[r]) && 0 < CreditOf(after.runners[r])
    ensures AllWithin(after)
  {
    forall q | 0 <= q < |after.runners| ensures WithinAllowance(after, q) {
      assert WithinAllowance(state, q);
    }
  }

  lemma PostWithin(state: State, r: nat)
    requires AllWithin(state) && r < |state.runners| && state.runners[r].stage == Posting
    ensures InTurn(state.runners[r]) && AllWithin(PostStep(state, r, false))
  {
    assert WithinAllowance(state, r);
    var runner, after := state.runners[r], PostStep(state, r, false);
    forall q | 0 <= q < |after.runners| ensures WithinAllowance(after, q) {
      assert WithinAllowance(state, q);
      SumAppend(state.postings, LedgerPosting(KeyOf(runner), CreditOf(runner), NewTotal(runner), r), PostedBy(q));
    }
  }

  lemma ClaimStepIsQuiet(state: State, r: nat)
    requires r < |state.runners| && InTurn(state.runners[r]) && AllWithin(state)
    ensures AllWithin(ClaimStep(state, r))
  {
    QuietWithin(state, r, ClaimStep(state, r));
  }

  lemma StepWithin(state: State, event: Event)
    requires Inv(state) && AllWithin(state)
    ensures AllWithin(Step(state, event))
  {
    match event
    case Begin(pass, spendable) => BeginWithin(state, pass, spendable);
    case Advance(r, throws) =>
      if r < |state.runners| {
        if !InTurn(state.runners[r]) {
          QuietWithin(state, r, Step(state, event));
        } else {
          assert RunnerOk(state, r);
          match state.runners[r].stage
          case Claiming => ClaimStepIsQuiet(state, r);
          case Creating => QuietWithin(state, r, CreateStep(state, r));
          case Posting =>
            if throws { QuietWithin(state, r, PostStep(state, r, true)); } else { PostWithin(state, r); }
          case Undoing => QuietWithin(state, r, UndoStep(state, r));
          case Over =>
        }
      }
  }

  lemma {:induction false} RunWithin(events: seq<Event>)
    ensures AllWithin(Run(events))
  {
    if events != [] {
      var before := Run(events[..|events| - 1]);
      RunKeeps(events[..|events| - 1]);
      RunWithin(events[..|events| - 1]);
      StepWithin(before, events[|events| - 1]);
    }
  }

  /** In every schedule the credits one pass posts are within the budget it started with. */
  lemma EachPassKeepsToItsBudget(events: seq<Event>, r: nat)
    requires r < |Run(events).runners|
    ensures 0 <= SpentBy(Run(events), r) <= Max(0, Run(events).runners[r].allowance)
    ensures SpentBy(Run(events), r) == Run(events).runners[r].allowance - Run(events).runners[r].budget
  {
    RunKeeps(events);
    RunWithin(events);
    var state := Run(events);
    assert WithinAllowance(state, r);
    forall i | 0 <= i < |state.postings| ensures 0 <= PostedBy(r)(state.postings[i]) {
      assert PostingOk(state, state.postings[i]);
      assert TotalIsStack(state, state.postings[i].key);
    }
    SumNonNegative(state.postings, PostedBy(r));
  }

  // Schedules.

  /** Some schedule leads here. */
  ghost predicate Reached(state: State)
  {
    exists events: seq<Event> :: state == Run(events)
  }

  lemma ReachedNext(state: State, event: Event, next: State)
    requires Reached(state) && next == Step(state, event)
    ensures Reached(next)
  {
    var events: seq<Event> :| state == Run(events);
    assert (events + [event])[..|events|] == events;
    assert Run(events + [event]) == Step(state, event);
  }

  // Single steps, told on any reached state.

  lemma FindsNoRow(state: State, r: nat, runner: Runner) returns (after: State)
    requires Reached(state) && r < |state.runners| && runner == state.runners[r]
    requires runner.stage == Claiming && InTurn(runner)
    requires 0 < CreditOf(runner) && Previous(runner) == 0 && KeyOf(runner) !in state.rows
    ensures Reached(after) && after == WithRunner(state, r, runner.(stage := Creating))
  {
    after := Step(state, Advance(r, false));
    ReachedNext(state, Advance(r, false), after);
  }

  lemma CreatesRow(state: State, r: nat, runner: Runner, key: EarningKey, total: int) returns (after: State)
    requires Reached(state) && r < |state.runners| && runner == state.runners[r]
    requires runner.stage == Creating && InTurn(runner) && KeyOf(runner) == key && key !in state.rows
    requires Previous(runner) == 0 && NewTotal(runner) == total
    ensures Reached(after) && after.rows == state.rows[key := Earning(total, runner.pass.currency)]
    ensures after.runners == state.runners[r := runner.(stage := Posting)] && after.postings == state.postings
    ensures after.claims == state.claims[key := Stack(state.claims, key) + [Segment(r, 0, total, Outstanding)]]
  {
    after := Step(state, Advance(r, false));
    ReachedNext(state, Advance(r, false), after);
  }

  lemma ClaimsRow(state: State, r: nat, runner: Runner, key: EarningKey, had: int, total: int) returns (after: State)
    requires Reached(state) && r < |state.runners| && runner == state.runners[r]
    requires runner.stage == Claiming && InTurn(runner) && KeyOf(runner) == key
    requires 0 < CreditOf(runner) && Previous(runner) == had && NewTotal(runner) == total
    requires Lookup(state.rows, key) == Some(had)
    ensures Reached(after) && after.rows == state.rows[key := state.rows[key].(accrued := total)]
    ensures after.runners == state.runners[r := runner.(stage := Posting)] && after.postings == state.postings
    ensures after.claims == state.claims[key := Stack(state.claims, key) + [Segment(r, had, total, Outstanding)]]
  {
    after := Step(state, Advance(r, false));
    ReachedNext(state, Advance(r, false), after);
  }

  lemma Throws(state: State, r: nat, runner: Runner) returns (after: State)
    requires Reached(state) && r < |state.runners| && runner == state.runners[r]
    requires runner.stage == Posting && InTurn(runner)
    ensures Reached(after) && after == WithRunner(state, r, runner.(stage := Undoing))
  {
    after := Step(state, Advance(r, true));
    ReachedNext(state, Advance(r, true), after);
  }

  lemma UndoMisses(state: State, r: nat, runner: Runner, key: EarningKey) returns (after: State)
    requires Reached(state) && r < |state.runners| && runner == state.runners[r]
    requires runner.stage == Undoing && InTurn(runner) && KeyOf(runner) == key
    requires Lookup(state.rows, key) != Some(NewTotal(runner))
    ensures Reached(after) && after.rows == state.rows && after.postings == state.postings
    ensures after.runners == state.runners[r := runner.(stage := Over)]
    ensures after.claims == state.claims[key := SetStatus(Stack(state.claims, key), r, Stranded)]
  {
    after := Step(state, Advance(r, false));
    ReachedNext(state, Advance(r, false), after);
  }

  lemma Posts(state: State, r: nat, runner: Runner, key: EarningKey, amount: int, total: int) returns (after: State)
    requires Reached(state) && r < |state.runners| && runner == state.runners[r]
    requires runner.stage == Posting && InTurn(runner) && KeyOf(runner) == key
    requires CreditOf(runner) == amount && NewTotal(runner) == total
    ensures Reached(after) && after.rows == state.rows
    ensures after.runners == state.runners[r := NextCreator(runner, amount)]
    ensures after.postings == state.postings + [LedgerPosting(key, amount, total, r)]
    ensures after.claims == state.claims[key := SetStatus(Stack(state.claims, key), r, Posted)]
  {
    after := Step(state, Advance(r, false));
    ReachedNext(state, Advance(r, false), after);
  }

  lemma OneRowAccrues(rows: Earnings, key: EarningKey)
    requires rows.Keys == {key}
    ensures CampaignAccrued(rows, key.campaign) == rows[key].accrued
  {
    SetSumRemove(rows.Keys, key, Contribution(rows, OfCampaign(key.campaign)));
    assert rows.Keys - {key} == {};
  }

  /** A pass that owes its one creator this much and can pay it. */
  predicate Owes(pass: Pass, key: EarningKey, amount: int)
  {
    pass.campaign == key.campaign && pass.creatorIds == [key.creator] && pass.paused == {}
    && pass.entitled(key.creator) == amount
  }

  lemma Credits(runner: Runner, key: EarningKey, had: int, owed: int)
    requires Owes(runner.pass, key, owed) && runner.position == 0 && runner.stage != Over
    requires Accrued(runner.snapshot, key) == had < owed && owed - had <= runner.budget
    ensures InTurn(runner) && KeyOf(runner) == key && Previous(runner) == had
    ensures CreditOf(runner) == owed - had && NewTotal(runner) == owed
  {
  }

  /** From empty tables, a pass finds no row to update. */
  lemma FirstBegins(key: EarningKey, pass: Pass, owed: int, spendable: int, runner: Runner) returns (state: State)
    requires Owes(pass, key, owed) && 0 < owed <= spendable
    requires runner == Runner(pass, map[], spendable, spendable, 0, Creating)
    ensures Reached(state) && state == State(map[], [runner], [], map[])
  {
    var start := State(map[], [], [], map[]);
    var begun := start.(runners := [runner.(stage := Claiming)]);
    assert start == Run([]);
    assert CampaignAccrued(map[], key.campaign) == 0;
    ReachedNext(start, Begin(pass, spendable), begun);
    Credits(runner.(stage := Claiming), key, 0, owed);
    state := FindsNoRow(begun, 0, runner.(stage := Claiming));
  }

  /** It creates its claim and is about to post it. */
  lemma FirstHolds(key: EarningKey, pass: Pass, owed: int, spendable: int) returns (state: State)
    requires Owes(pass, key, owed) && 0 < owed <= spendable
    ensures Reached(state) && state.postings == []
    ensures state.rows == map[key := Earning(owed, pass.currency)]
    ensures state.runners == [Runner(pass, map[], spendable, spendable, 0, Posting)]
    ensures state.claims == map[key := [Segment(0, 0, owed, Outstanding)]]
  {
    var runner := Runner(pass, map[], spendable, spendable, 0, Creating);
    var creating := FirstBegins(key, pass, owed, spendable, runner);
    Credits(runner, key, 0, owed);
    state := CreatesRow(creating, 0, runner, key, owed);
    assert Stack(creating.claims, key) + [Segment(0, 0, owed, Outstanding)] == [Segment(0, 0, owed, Outstanding)];
  }

  /** A second pass, entitled to more by now, begins. */
  lemma SecondBegins(first: State, key: EarningKey, pass: Pass, had: int, spendable: int, runner: Runner)
    returns (state: State)
    requires Reached(first) && pass.campaign == key.campaign
    requires first.rows.Keys == {key} && first.rows[key].accrued == had
    requires runner == Runner(pass, first.rows, spendable - had, spendable - had, 0, Claiming)
    ensures Reached(state) && state == first.(runners := first.runners + [runner])
  {
    OneRowAccrues(first.rows, key);
    state := first.(runners := first.runners + [runner]);
    ReachedNext(first, Begin(pass, spendable), state);
  }

  /** And claims on top. */
  lemma SecondHolds(first: State, key: EarningKey, pass: Pass, had: int, owed: int, spendable: int)
    returns (state: State)
    requires Reached(first) && |first.runners| == 1 && first.postings == []
    requires first.rows.Keys == {key} && first.rows[key].accrued == had
    requires first.claims == map[key := [Segment(0, 0, had, Outstanding)]]
    requires Owes(pass, key, owed) && 0 < had < owed <= spendable
    ensures Reached(state) && state.postings == []
    ensures |state.runners| == 2 && state.runners[0] == first.runners[0]
    ensures state.runners[1] == Runner(pass, first.rows, spendable - had, spendable - had, 0, Posting)
    ensures Lookup(state.rows, key) == Some(owed)
    ensures state.claims == map[key := [Segment(0, 0, had, Outstanding), Segment(1, had, owed, Outstanding)]]
  {
    var runner := Runner(pass, first.rows, spendable - had, spendable - had, 0, Claiming);
    var begun := SecondBegins(first, key, pass, had, spendable, runner);
    Credits(runner, key, had, owed);
    state := ClaimsRow(begun, 1, runner, key, had, owed);
    assert Stack(begun.claims, key) + [Segment(1, had, owed, Outstanding)]
           == [Segment(0, 0, had, Outstanding), Segment(1, had, owed, Outstanding)];
  }

  lemma FirstIsStranded(had: int, owed: int)
    ensures SetStatus([Segment(0, 0, had, Outstanding), Segment(1, had, owed, Outstanding)], 0, Stranded)
            == [Segment(0, 0, had, Stranded), Segment(1, had, owed, Outstanding)]
  {
  }

  /** The first pass's posting throws and its rollback finds the second pass's total. */
  lemma RollbackMisses(both: State, key: EarningKey, had: int, owed: int) returns (state: State)
    requires Reached(both) && both.postings == [] && |both.runners| == 2
    requires both.runners[0].stage == Posting && InTurn(both.runners[0]) && KeyOf(both.runners[0]) == key
    requires NewTotal(both.runners[0]) == had && Lookup(both.rows, key) == Some(owed) && had < owed
    requires both.claims == map[key := [Segment(0, 0, had, Outstanding), Segment(1, had, owed, Outstanding)]]
    ensures Reached(state) && state.postings == [] && state.rows == both.rows && |state.runners| == 2
    ensures state.runners[0].stage == Over && state.runners[1] == both.runners[1]
    ensures state.claims == map[key := [Segment(0, 0, had, Stranded), Segment(1, had, owed, Outstanding)]]
  {
    var thrown := Throws(both, 0, both.runners[0]);
    state := UndoMisses(thrown, 0, thrown.runners[0], key);
    FirstIsStranded(had, owed);
  }

  lemma SecondPosts(undone: State, key: EarningKey, had: int, owed: int) returns (state: State)
    requires Reached(undone) && undone.postings == [] && |undone.runners| == 2
    requires undone.runners[0].stage == Over && Lookup(undone.rows, key) == Some(owed)
    requires undone.runners[1].stage == Posting && InTurn(undone.runners[1]) && KeyOf(undone.runners[1]) == key
    requires CreditOf(undone.runners[1]) == owed - had && NewTotal(undone.runners[1]) == owed
    requires undone.claims == map[key := [Segment(0, 0, had, Stranded), Segment(1, had, owed, Outstanding)]]
    ensures Reached(state) && Settled(state, key) && LostRollback(state, key)
    ensures Accrued(state.rows, key) == owed && PostedMinor(state, key) == owed - had
  {
    state := Posts(undone, 1, undone.runners[1], key, owed - had, owed);
    assert Stack(state.claims, key)[0] == Segment(0, 0, had, Stranded);
    SumAppend([], LedgerPosting(key, owed - had, owed, 1), PostedTo(key));
    assert state.postings == [] + [LedgerPosting(key, owed - had, owed, 1)];
  }

  /**
    Whenever a creator's entitlement grows while a pass is posting: if another pass claims on top and the
    first posting then throws, its rollback is lost. With nothing in flight any more the table holds the
    whole entitlement, and the ledger lacks what the first pass claimed.
   */
  lemma RollbackLosesItsRace(key: EarningKey, first: Pass, second: Pass, had: int, owed: int, spendable: int)
    returns (state: State)
    requires Owes(first, key, had) && Owes(second, key, owed) && 0 < had < owed <= spendable
    ensures Reached(state) && Settled(state, key) && LostRollback(state, key)
    ensures Accrued(state.rows, key) == owed && PostedMinor(state, key) == owed - had
  {
    var one := FirstHolds(key, first, had, spendable);
    Credits(one.runners[0], key, 0, had);
    var both := SecondHolds(one, key, second, had, owed, spendable);
    Credits(both.runners[1], key, had, owed);
    var undone := RollbackMisses(both, key, had, owed);
    state := SecondPosts(undone, key, had, owed);
  }

  // Overlapping passes: each keeps to the budget it read, together they may not.

  lemma ClaimsFirst(state: State, r: nat, runner: Runner, key: EarningKey, owed: int) returns (after: State)
    requires Reached(state) && r < |state.runners| && runner == state.runners[r]
    requires runner.stage == Claiming && runner.position == 0 && Owes(runner.pass, key, owed)
    requires 0 < owed <= runner.budget && key !in runner.snapshot && key !in state.rows
    ensures Reached(after)
    ensures after.rows == state.rows[key := Earning(owed, runner.pass.currency)]
    ensures after.runners == state.runners[r := runner.(stage := Posting)]
    ensures after.postings == state.postings
  {
    Credits(runner, key, 0, owed);
    var creating := FindsNoRow(state, r, runner);
    after := CreatesRow(creating, r, runner.(stage := Creating), key, owed);
  }

  /** A pass at its one creator claims and posts while no other pass moves. */
  lemma CreditsFirst(state: State, r: nat, runner: Runner, key: EarningKey, owed: int) returns (after: State)
    requires Reached(state) && r < |state.runners| && runner == state.runners[r]
    requires runner.stage == Claiming && runner.position == 0 && Owes(runner.pass, key, owed)
    requires 0 < owed <= runner.budget && key !in runner.snapshot && key !in state.rows
    ensures Reached(after)
    ensures after.rows == state.rows[key := Earning(owed, runner.pass.currency)]
    ensures after.runners == state.runners[r := NextCreator(runner.(stage := Posting), owed)]
    ensures after.postings == state.postings + [LedgerPosting(key, owed, owed, r)]
  {
    var holding := ClaimsFirst(state, r, runner, key, owed);
    Credits(holding.runners[r], key, 0, owed);
    after := Posts(holding, r, holding.runners[r], key, owed, owed);
  }

  /** Two passes read the same untouched campaign. */
  lemma BothBegin(first: Pass, second: Pass, spendable: int) returns (state: State)
    requires first.campaign == second.campaign
    ensures Reached(state) && state.rows == map[] && state.postings == []
    ensures state.runners == [Runner(first, map[], spendable, spendable, 0, Claiming),
                              Runner(second, map[], spendable, spendable, 0, Claiming)]
  {
    var start := State(map[], [], [], map[]);
    var one := start.(runners := [Runner(first, map[], spendable, spendable, 0, Claiming)]);
    assert start == Run([]);
    assert CampaignAccrued(map[], first.campaign) == 0;
    ReachedNext(start, Begin(first, spendable), one);
    state := one.(runners := one.runners + [Runner(second, map[], spendable, spendable, 0, Claiming)]);
    ReachedNext(one, Begin(second, spendable), state);
  }

  lemma TwoRowsAccrue(first: EarningKey, second: EarningKey, one: Earning, two: Earning)
    requires first != second && first.campaign == second.campaign
    ensures CampaignAccrued(map[first := one][second := two], first.campaign) == one.accrued + two.accrued
  {
    var rows := map[first := one];
    OneRowAccrues(rows, first);
    WriteMovesSums(rows, second, two, OfCampaign(first.campaign));
  }

  /**
    Two passes over different creators, both begun before either credits: each credits all it may, so a
    campaign accrues what both owe, even where that is more than there was to spend.
   */
  lemma OverlappingPassesAddUp(
    first: Pass, second: Pass, one: EarningKey, two: EarningKey, owedOne: int, owedTwo: int, spendable: int)
    returns (state: State)
    requires Owes(first, one, owedOne) && Owes(second, two, owedTwo)
    requires one.campaign == two.campaign && one.creator != two.creator
    requires 0 < owedOne <= spendable && 0 < owedTwo <= spendable
    ensures Reached(state) && CampaignAccrued(state.rows, one.campaign) == owedOne + owedTwo
    ensures spendable < CampaignAccrued(state.rows, one.campaign) <==> spendable < owedOne + owedTwo
    ensures |state.postings| == 2 && state.postings[0].amount == owedOne && state.postings[1].amount == owedTwo
  {
    var both := BothBegin(first, second, spendable);
    var half := CreditsFirst(both, 0, both.runners[0], one, owedOne);
    state := CreditsFirst(half, 1, half.runners[1], two, owedTwo);
    TwoRowsAccrue(one, two, Earning(owedOne, first.currency), Earning(owedTwo, second.currency));
  }
}
