/**
  A pass that nobody interrupts: the statement-by-statement steps of one pass, taken in a row, come to
  exactly what the settlement loop says of it.
 */
module LonePass {
  import opened Outcomes
  import opened EarningTable
  import opened Settlement
  import opened ClaimInterleaving

  ghost function Move(state: State, r: nat, throws: bool): (next: State)
    requires r < |state.runners|
    ensures |next.runners| == |state.runners|
  {
    Step(state, Advance(r, throws))
  }

  ghost function MoveIf(state: State, r: nat, throws: bool, stage: Stage): (next: State)
    requires r < |state.runners|
    ensures |next.runners| == |state.runners|
  {
    if state.runners[r].stage == stage then Move(state, r, throws) else state
  }

  /** The claim: a conditional update and, if needed, a first row. */
  ghost function AfterClaim(state: State, r: nat): (next: State)
    requires r < |state.runners|
    ensures |next.runners| == |state.runners|
  {
    MoveIf(Move(state, r, false), r, false, Creating)
  }

  /** The posting and, if it throws, the rollback. */
  ghost function AfterPosting(state: State, r: nat, throws: bool): (next: State)
    requires r < |state.runners|
    ensures |next.runners| == |state.runners|
  {
    MoveIf(MoveIf(state, r, throws, Posting), r, throws, Undoing)
  }

  /** One creator's turn. */
  ghost function Turn(state: State, r: nat, throws: bool): (next: State)
    requires r < |state.runners|
    ensures |next.runners| == |state.runners|
  {
    AfterPosting(AfterClaim(state, r), r, throws)
  }

  /** From one creator to the next; a pass that is over stays so. */
  ghost predicate TurnLeads(before: State, after: State, r: nat, throws: bool)
  {
    r < |before.runners| && after == if before.runners[r].stage == Over then before else Turn(before, r, throws)
  }

  ghost predicate TurnAt(states: seq<State>, r: nat, failAt: Option<nat>, k: nat)
    requires k + 1 < |states|
  {
    TurnLeads(states[k], states[k + 1], r, failAt == Some(k))
  }

  /** The states a pass goes through, creator by creator, with no other pass moving. */
  ghost predicate Undisturbed(states: seq<State>, r: nat, failAt: Option<nat>)
  {
    forall k :: 0 <= k < |states| - 1 ==> TurnAt(states, r, failAt, k)
  }

  predicate AtCreator(state: State, r: nat)
  {
    r < |state.runners| && state.runners[r].stage == Claiming && InTurn(state.runners[r])
  }

  lemma ClaimMove(state: State, r: nat)
    requires AtCreator(state, r)
    ensures Move(state, r, false) == ClaimStep(state, r)
  {
  }

  lemma CreateMove(state: State, r: nat)
    requires r < |state.runners| && InTurn(state.runners[r])
    ensures MoveIf(state, r, false, Creating)
            == if state.runners[r].stage == Creating then CreateStep(state, r) else state
  {
  }

  /** Uninterrupted, the two claim statements are the claim. */
  lemma ClaimIsWhole(state: State, r: nat)
    requires AtCreator(state, r)
    ensures
      var runner, after := state.runners[r], AfterClaim(state, r);
      var claim := Claim(state.rows, KeyOf(runner), runner.pass.currency, Previous(runner), NewTotal(runner));
      && after.postings == state.postings
      && (if 0 < CreditOf(runner) && claim.1
          then after.rows == claim.0 && after.runners[r] == runner.(stage := Posting)
          else after.rows == state.rows && after.runners[r] == NextCreator(runner, 0))
  {
    ClaimMove(state, r);
    if ClaimStep(state, r).runners[r].stage == Creating {
      CreateMove(ClaimStep(state, r), r);
    }
  }

  /** Uninterrupted, a rollback finds its own total and puts the old one back. */
  lemma PostingIsWhole(state: State, r: nat, throws: bool)
    requires r < |state.runners| && state.runners[r].stage == Posting && InTurn(state.runners[r])
    requires Lookup(state.rows, KeyOf(state.runners[r])) == Some(NewTotal(state.runners[r]))
    ensures
      var runner, after := state.runners[r], AfterPosting(state, r, throws);
      if throws then
        && after.rows == Claim(state.rows, KeyOf(runner), runner.pass.currency, NewTotal(runner), Previous(runner)).0
        && after.runners[r] == runner.(stage := Over)
        && after.postings == state.postings
      else
        && after.rows == state.rows
        && after.runners[r] == NextCreator(runner, CreditOf(runner))
        && after.postings
           == state.postings + [LedgerPosting(KeyOf(runner), CreditOf(runner), NewTotal(runner), r)]
  {
  }

  function AsPosting(campaign: nat, owner: nat): Credit -> LedgerPosting
  {
    (credit: Credit) => LedgerPosting(EarningKey(campaign, credit.creator), credit.amount, credit.total, owner)
  }

  function AsPostings(campaign: nat, owner: nat, credits: seq<Credit>): (postings: seq<LedgerPosting>)
    ensures |postings| == |credits|
  {
    if credits == [] then []
    else AsPostings(campaign, owner, credits[..|credits| - 1]) + [AsPosting(campaign, owner)(credits[|credits| - 1])]
  }

  /** The steps stand where the loop stands after `n` creators. */
  ghost predicate Agrees(
    state: State, r: nat, start: Runner, before: seq<LedgerPosting>, progress: Progress, n: nat)
  {
    && r < |state.runners|
    && state.rows == progress.rows
    && state.postings == before + AsPostings(start.pass.campaign, r, progress.credits)
    && (if progress.aborted then state.runners[r].stage == Over
        else state.runners[r] == start.(position := n, budget := progress.budget))
  }

  /** How a turn ends: nothing to claim or claim lost, credited, or thrown and given back. */
  datatype Ending = Skipped | CreditedNow | GivenBack

  ghost function EndingOf(state: State, r: nat, throws: bool): Ending
    requires AtCreator(state, r)
  {
    var runner := state.runners[r];
    if !(0 < CreditOf(runner) && Accrued(state.rows, KeyOf(runner)) == Previous(runner)) then Skipped
    else if throws then GivenBack
    else CreditedNow
  }

  ghost function ClaimedRows(state: State, r: nat): Earnings
    requires AtCreator(state, r)
  {
    var runner := state.runners[r];
    Claim(state.rows, KeyOf(runner), runner.pass.currency, Previous(runner), NewTotal(runner)).0
  }

  ghost function RowsAfter(state: State, r: nat, throws: bool): Earnings
    requires AtCreator(state, r)
  {
    var runner := state.runners[r];
    match EndingOf(state, r, throws)
    case Skipped => state.rows
    case CreditedNow => ClaimedRows(state, r)
    case GivenBack =>
      Claim(ClaimedRows(state, r), KeyOf(runner), runner.pass.currency, NewTotal(runner), Previous(runner)).0
  }

  lemma TurnEffect(state: State, r: nat, throws: bool)
    requires AtCreator(state, r)
    ensures
      var runner, after, ending := state.runners[r], Turn(state, r, throws), EndingOf(state, r, throws);
      && after.rows == RowsAfter(state, r, throws)
      && after.runners[r] == (
           match ending
           case Skipped => NextCreator(runner, 0)
           case CreditedNow => NextCreator(runner, CreditOf(runner))
           case GivenBack => runner.(stage := Over))
      && after.postings == state.postings + (
           if ending.CreditedNow? then [LedgerPosting(KeyOf(runner), CreditOf(runner), NewTotal(runner), r)] else [])
  {
    var runner := state.runners[r];
    ClaimIsWhole(state, r);
    ClaimWinsOnlyUnchanged(state.rows, KeyOf(runner), runner.pass.currency, Previous(runner), NewTotal(runner));
    if !EndingOf(state, r, throws).Skipped? {
      PostingIsWhole(AfterClaim(state, r), r, throws);
    }
  }

  /** The loop's turn ends the same way. */
  lemma LoopTurnEffect(state: State, r: nat, throws: bool, progress: Progress)
    requires AtCreator(state, r)
    requires progress.rows == state.rows && progress.budget == state.runners[r].budget && !progress.aborted
    ensures
      var runner, ending := state.runners[r], EndingOf(state, r, throws);
      var next := SettleOne(runner.pass, runner.snapshot, progress, KeyOf(runner).creator, throws);
      && next.rows == RowsAfter(state, r, throws)
      && next.aborted == ending.GivenBack?
      && next.budget == progress.budget - (if ending.CreditedNow? then CreditOf(runner) else 0)
      && next.credits == (
           if ending.CreditedNow? then progress.credits
               + [Credit(KeyOf(runner).creator, CreditOf(runner), NewTotal(runner))]
           else progress.credits)
  {
    var runner := state.runners[r];
    ClaimWinsOnlyUnchanged(state.rows, KeyOf(runner), runner.pass.currency, Previous(runner), NewTotal(runner));
  }

  lemma PostingsAppend(campaign: nat, owner: nat, credits: seq<Credit>, credit: Credit)
    ensures AsPostings(campaign, owner, credits + [credit])
            == AsPostings(campaign, owner, credits) + [AsPosting(campaign, owner)(credit)]
  {
    assert (credits + [credit])[..|credits|] == credits;
  }

  lemma TurnIsSettleOne(
    state: State, r: nat, start: Runner, before: seq<LedgerPosting>, progress: Progress, n: nat, throws: bool,
    after: State, next: Progress)
    requires Agrees(state, r, start, before, progress, n) && !progress.aborted
    requires start.stage == Claiming && n < |start.pass.creatorIds|
    requires after == Turn(state, r, throws)
    requires next == SettleOne(start.pass, start.snapshot, progress, start.pass.creatorIds[n], throws)
    ensures Agrees(after, r, start, before, next, n + 1)
  {
    var runner := state.runners[r];
    TurnEffect(state, r, throws);
    LoopTurnEffect(state, r, throws, progress);
    PostingsAppend(start.pass.campaign, r, progress.credits,
        Credit(KeyOf(runner).creator, CreditOf(runner), NewTotal(runner)));
  }

  lemma AgreesStep(
    state: State, r: nat, start: Runner, before: seq<LedgerPosting>, progress: Progress, n: nat, throws: bool,
    after: State, next: Progress)
    requires Agrees(state, r, start, before, progress, n)
    requires start.stage == Claiming && n < |start.pass.creatorIds|
    requires TurnLeads(state, after, r, throws)
    requires next == if progress.aborted then progress
                     else SettleOne(start.pass, start.snapshot, progress, start.pass.creatorIds[n], throws)
    ensures Agrees(after, r, start, before, next, n + 1)
  {
    if !progress.aborted {
      TurnIsSettleOne(state, r, start, before, progress, n, throws, after, next);
    }
  }

  lemma AgreesAtNext(
    states: seq<State>, r: nat, start: Runner, failAt: Option<nat>, before: seq<LedgerPosting>, k: nat,
    rows: Earnings)
    requires Undisturbed(states, r, failAt) && k + 1 < |states| && k < |start.pass.creatorIds|
    requires start.stage == Claiming && start.snapshot == rows
    requires Agrees(states[k], r, start, before, SettleUpTo(start.pass, rows, start.budget, failAt, k), k)
    ensures Agrees(states[k + 1], r, start, before, SettleUpTo(start.pass, rows, start.budget, failAt, k + 1), k + 1)
  {
    assert TurnAt(states, r, failAt, k);
    AgreesStep(states[k], r, start, before, SettleUpTo(start.pass, rows, start.budget, failAt, k), k,
               failAt == Some(k), states[k + 1], SettleUpTo(start.pass, rows, start.budget, failAt, k + 1));
  }

  /** Left alone, a pass's steps are the loop: same rows, same postings in the same order, same end. */
  lemma {:induction false} LonePassIsTheLoop(
    states: seq<State>, r: nat, start: Runner, failAt: Option<nat>, n: nat, progress: Progress)
    requires Undisturbed(states, r, failAt) && n < |states| && n <= |start.pass.creatorIds|
    requires r < |states[0].runners| && states[0].runners[r] == start
    requires start.stage == Claiming && start.position == 0 && start.snapshot == states[0].rows
    requires progress == SettleUpTo(start.pass, states[0].rows, start.budget, failAt, n)
    ensures Agrees(states[n], r, start, states[0].postings, progress, n)
  {
    if n == 0 {
      assert states[0].postings + [] == states[0].postings;
    } else {
      var k := n - 1;
      LonePassIsTheLoop(states, r, start, failAt, k,
                        SettleUpTo(start.pass, states[0].rows, start.budget, failAt, k));
      AgreesAtNext(states, r, start, failAt, states[0].postings, k, states[0].rows);
    }
  }
}
