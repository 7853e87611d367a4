/**
  When a campaign's budget bounds what interleaved passes credit: if no pass on it begins while another is
  still under way (src/modules/payments/application/earnings-settlement.service.ts:143-189, 216-220). Passes on
  other campaigns interleave freely, and any posting may throw.
 */
module CampaignPasses {
  import opened Outcomes
  import opened Sums
  import opened EarningTable
  import opened Settlement
  import opened ClaimInterleaving

  predicate UnderWay(runner: Runner, campaign: nat)
  {
    runner.pass.campaign == campaign && InTurn(runner)
  }

  predicate NoneUnderWay(state: State, campaign: nat)
  {
    forall r :: 0 <= r < |state.runners| ==> !UnderWay(state.runners[r], campaign)
  }

  /** What a caller sees to before starting a pass: no other is under way, and it may spend up to the limit. */
  predicate Admitted(state: State, event: Event, campaign: nat, limit: int)
  {
    event.Begin? && event.pass.campaign == campaign ==> event.spendable <= limit && NoneUnderWay(state, campaign)
  }

  ghost predicate OneAtATime(events: seq<Event>, campaign: nat, limit: int)
  {
    events == []
    || (OneAtATime(events[..|events| - 1], campaign, limit)
        && Admitted(Run(events[..|events| - 1]), events[|events| - 1], campaign, limit))
  }

  /** The credit a pass has claimed and neither posted nor given back. */
  function HeldBy(runner: Runner): int
  {
    if InTurn(runner) && (runner.stage == Posting || runner.stage == Undoing) then CreditOf(runner) else 0
  }

  ghost predicate RoomFor(state: State, campaign: nat, limit: int, r: nat)
    requires r < |state.runners|
  {
    UnderWay(state.runners[r], campaign) ==>
      CampaignAccrued(state.rows, campaign) + state.runners[r].budget <= limit + HeldBy(state.runners[r])
  }

  ghost predicate WithinLimit(state: State, campaign: nat, limit: int)
  {
    && CampaignAccrued(state.rows, campaign) <= limit
    && (forall r :: 0 <= r < |state.runners| ==> RoomFor(state, campaign, limit, r))
    && (forall q, r :: 0 <= q < r < |state.runners| ==>
          !(UnderWay(state.runners[q], campaign) && UnderWay(state.runners[r], campaign)))
  }

  lemma BeginStays(state: State, pass: Pass, spendable: int, campaign: nat, limit: int)
    requires WithinLimit(state, campaign, limit) && Admitted(state, Begin(pass, spendable), campaign, limit)
    ensures WithinLimit(Step(state, Begin(pass, spendable)), campaign, limit)
  {
    var after := Step(state, Begin(pass, spendable));
    forall r | 0 <= r < |after.runners| ensures RoomFor(after, campaign, limit, r) {
      assert r < |state.runners| ==> RoomFor(state, campaign, limit, r);
    }
  }

  /** One pass moves: the others, and with another campaign's pass the whole campaign, stay as they were. */
  lemma MoveStays(state: State, r: nat, next: Runner, rows: Earnings, after: State, campaign: nat, limit: int)
    requires WithinLimit(state, campaign, limit) && r < |state.runners|
    requires next.pass == state.runners[r].pass && (InTurn(next) ==> InTurn(state.runners[r]))
    requires after.rows == rows && after.runners == state.runners[r := next]
    requires CampaignAccrued(rows, campaign) <= limit
    requires UnderWay(next, campaign) ==> CampaignAccrued(rows, campaign) + next.budget <= limit + HeldBy(next)
    requires CampaignAccrued(rows, campaign) == CampaignAccrued(state.rows, campaign)
             || UnderWay(state.runners[r], campaign)
    ensures WithinLimit(after, campaign, limit)
  {
    forall q | 0 <= q < |after.runners| ensures RoomFor(after, campaign, limit, q) {
      assert RoomFor(state, campaign, limit, q);
      if q != r && UnderWay(state.runners[r], campaign) {
        assert !UnderWay(state.runners[q], campaign);
      }
    }
  }

  /** Writing a running total moves its own campaign by the change and no other. */
  lemma WriteMoves(rows: Earnings, key: EarningKey, row: Earning, campaign: nat)
    ensures CampaignAccrued(rows[key := row], campaign)
            == CampaignAccrued(rows, campaign)
               + if key.campaign == campaign then row.accrued - Accrued(rows, key) else 0
  {
    WriteMovesSums(rows, key, row, OfCampaign(campaign));
  }

  lemma WonStays(state: State, r: nat, row: Earning, campaign: nat, limit: int)
    requires WithinLimit(state, campaign, limit) && r < |state.runners| && InTurn(state.runners[r])
    requires state.runners[r].stage == Claiming || state.runners[r].stage == Creating
    requires 0 < CreditOf(state.runners[r])
    requires Accrued(state.rows, KeyOf(state.runners[r])) == Previous(state.runners[r])
    requires row.accrued == NewTotal(state.runners[r])
    ensures WithinLimit(Won(state, r, state.rows[KeyOf(state.runners[r]) := row]), campaign, limit)
  {
    var runner := state.runners[r];
    var next := runner.(stage := Posting);
    var rows := state.rows[KeyOf(runner) := row];
    assert RoomFor(state, campaign, limit, r);
    WriteMoves(state.rows, KeyOf(runner), row, campaign);
    assert CreditOf(runner) <= runner.budget && CreditOf(next) == CreditOf(runner);
    MoveStays(state, r, next, rows, Won(state, r, rows), campaign, limit);
  }

  lemma ClaimStays(state: State, r: nat, campaign: nat, limit: int)
    requires WithinLimit(state, campaign, limit) && r < |state.runners| && InTurn(state.runners[r])
    requires state.runners[r].stage == Claiming
    ensures WithinLimit(ClaimStep(state, r), campaign, limit)
  {
    var runner := state.runners[r];
    var key := KeyOf(runner);
    assert RoomFor(state, campaign, limit, r);
    if 0 < CreditOf(runner) && Lookup(state.rows, key) == Some(Previous(runner)) {
      WonStays(state, r, state.rows[key].(accrued := NewTotal(runner)), campaign, limit);
    } else if 0 < CreditOf(runner) && Previous(runner) == 0 {
      MoveStays(state, r, runner.(stage := Creating), state.rows, ClaimStep(state, r), campaign, limit);
    } else {
      MoveStays(state, r, NextCreator(runner, 0), state.rows, ClaimStep(state, r), campaign, limit);
    }
  }

  lemma CreateStays(state: State, r: nat, campaign: nat, limit: int)
    requires WithinLimit(state, campaign, limit) && r < |state.runners| && InTurn(state.runners[r])
    requires state.runners[r].stage == Creating && 0 < CreditOf(state.runners[r]) && Previous(state.runners[r]) == 0
    ensures WithinLimit(CreateStep(state, r), campaign, limit)
  {
    var runner := state.runners[r];
    var key := KeyOf(runner);
    assert RoomFor(state, campaign, limit, r);
    if key !in state.rows {
      WonStays(state, r, Earning(NewTotal(runner), runner.pass.currency), campaign, limit);
    } else {
      MoveStays(state, r, NextCreator(runner, 0), state.rows, CreateStep(state, r), campaign, limit);
    }
  }

  lemma PostStays(state: State, r: nat, throws: bool, campaign: nat, limit: int)
    requires WithinLimit(state, campaign, limit) && r < |state.runners| && InTurn(state.runners[r])
    requires state.runners[r].stage == Posting
    ensures WithinLimit(PostStep(state, r, throws), campaign, limit)
  {
    var runner := state.runners[r];
    assert RoomFor(state, campaign, limit, r);
    if throws {
      var next := runner.(stage := Undoing);
      assert CreditOf(next) == CreditOf(runner);
      MoveStays(state, r, next, state.rows, PostStep(state, r, true), campaign, limit);
    } else {
      MoveStays(state, r, NextCreator(runner, CreditOf(runner)), state.rows, PostStep(state, r, false), campaign,
                limit);
    }
  }

  lemma UndoStays(state: State, r: nat, campaign: nat, limit: int)
    requires WithinLimit(state, campaign, limit) && r < |state.runners| && InTurn(state.runners[r])
    requires state.runners[r].stage == Undoing && 0 < CreditOf(state.runners[r])
    ensures WithinLimit(UndoStep(state, r), campaign, limit)
  {
    var runner, after := state.runners[r], UndoStep(state, r);
    var key := KeyOf(runner);
    if Lookup(state.rows, key) == Some(NewTotal(runner)) {
      WriteMoves(state.rows, key, state.rows[key].(accrued := Previous(runner)), campaign);
    }
    MoveStays(state, r, runner.(stage := Over), after.rows, after, campaign, limit);
  }

  lemma AdvanceStays(state: State, r: nat, throws: bool, campaign: nat, limit: int)
    requires Inv(state) && WithinLimit(state, campaign, limit)
    ensures WithinLimit(Step(state, Advance(r, throws)), campaign, limit)
  {
    if r < |state.runners| {
      var runner := state.runners[r];
      assert RunnerOk(state, r);
      if !InTurn(runner) {
        MoveStays(state, r, runner.(stage := Over), state.rows, Step(state, Advance(r, throws)), campaign, limit);
      } else {
        match runner.stage
        case Claiming => ClaimStays(state, r, campaign, limit);
        case Creating => CreateStays(state, r, campaign, limit);
        case Posting => PostStays(state, r, throws, campaign, limit);
        case Undoing => UndoStays(state, r, campaign, limit);
        case Over =>
      }
    }
  }

  lemma {:induction false} RunStaysWithin(events: seq<Event>, campaign: nat, limit: nat)
    requires OneAtATime(events, campaign, limit)
    ensures WithinLimit(Run(events), campaign, limit)
  {
    if events == [] {
      assert CampaignAccrued(map[], campaign) == 0;
    } else {
      var before, last := Run(events[..|events| - 1]), events[|events| - 1];
      RunStaysWithin(events[..|events| - 1], campaign, limit);
      RunKeeps(events[..|events| - 1]);
      match last
      case Begin(pass, spendable) => BeginStays(before, pass, spendable, campaign, limit);
      case Advance(r, throws) => AdvanceStays(before, r, throws, campaign, limit);
    }
  }

  /**
    While passes on a campaign do not overlap, everything its creators have together stays within what the
    passes may spend, whatever passes on other campaigns do and whichever postings throw.
   */
  lemma SeparatePassesKeepToTheBudget(events: seq<Event>, campaign: nat, limit: nat)
    requires OneAtATime(events, campaign, limit)
    ensures CampaignAccrued(Run(events).rows, campaign) <= limit
  {
    RunStaysWithin(events, campaign, limit);
  }
}
