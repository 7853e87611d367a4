/**
  Any number of settlement passes at once (src/modules/payments/application/earnings-settlement.service.ts:143-189,
  228-299). A step is one database statement or one ledger posting of one pass, so steps of different
  passes interleave freely, and any posting may throw.

  `claims` is a history variable: per running total, the stretches won by claims and not given back.
 */
module ClaimInterleaving {
  import opened Outcomes
  import opened Sums
  import opened EarningTable
  import opened Settlement

  datatype Status = Outstanding | Posted | Stranded

  /** A won claim from one total to a higher one. A claim is stranded when giving it back failed. */
  datatype Segment = Segment(owner: nat, low: int, high: int, status: Status)

  /** Where a pass stands with its current creator. */
  datatype Stage = Claiming | Creating | Posting | Undoing | Over

  /** `allowance` is the budget the pass started with, `budget` what it has left. */
  datatype Runner =
    Runner(pass: Pass, snapshot: Earnings, allowance: int, budget: int, position: nat, stage: Stage)

  /** A posted credit; `total` is what its reference ends with, `owner` the pass that posted it. */
  datatype LedgerPosting = LedgerPosting(key: EarningKey, amount: int, total: int, owner: nat)

  datatype State = State(
    rows: Earnings, runners: seq<Runner>, postings: seq<LedgerPosting>, claims: map<EarningKey, seq<Segment>>)

  datatype Event = Begin(pass: Pass, spendable: int) | Advance(runner: nat, postingThrows: bool)

  predicate InTurn(runner: Runner)
  {
    runner.stage != Over && runner.position < |runner.pass.creatorIds|
  }

  function KeyOf(runner: Runner): EarningKey
    requires InTurn(runner)
  {
    EarningKey(runner.pass.campaign, runner.pass.creatorIds[runner.position])
  }

  function Previous(runner: Runner): int
    requires InTurn(runner)
  {
    Accrued(runner.snapshot, KeyOf(runner))
  }

  function CreditOf(runner: Runner): int
    requires InTurn(runner)
  {
    CreditMinor(runner.pass, KeyOf(runner).creator, Previous(runner), runner.budget)
  }

  function NewTotal(runner: Runner): int
    requires InTurn(runner)
  {
    Previous(runner) + CreditOf(runner)
  }

  function Stack(claims: map<EarningKey, seq<Segment>>, key: EarningKey): seq<Segment>
  {
    if key in claims then claims[key] else []
  }

  function SetStatus(segments: seq<Segment>, owner: nat, status: Status): (marked: seq<Segment>)
    ensures |marked| == |segments|
  {
    seq(|segments|, i requires 0 <= i < |segments| =>
      if segments[i].owner == owner && segments[i].status == Outstanding then segments[i].(status := status)
      else segments[i])
  }

  function WithRunner(state: State, r: nat, runner: Runner): State
    requires r < |state.runners|
  {
    state.(runners := state.runners[r := runner])
  }

  function NextCreator(runner: Runner, credited: int): Runner
  {
    runner.(position := runner.position + 1, stage := Claiming, budget := runner.budget - credited)
  }

  /** The claim was won: the row already holds the new total. */
  function Won(state: State, r: nat, rows: Earnings): State
    requires r < |state.runners| && InTurn(state.runners[r])
  {
    var runner := state.runners[r];
    var key := KeyOf(runner);
    var segment := Segment(r, Previous(runner), NewTotal(runner), Outstanding);
    WithRunner(
      state.(rows := rows, claims := state.claims[key := Stack(state.claims, key) + [segment]]),
      r, runner.(stage := Posting))
  }

  function ClaimStep(state: State, r: nat): State
    requires r < |state.runners| && InTurn(state.runners[r])
  {
    var runner := state.runners[r];
    if CreditOf(runner) <= 0 then WithRunner(state, r, NextCreator(runner, 0))
    else
      var update := UpdateMany(state.rows, KeyOf(runner), Previous(runner), NewTotal(runner));
      if update.1 then Won(state, r, update.0)
      else if Previous(runner) != 0 then WithRunner(state, r, NextCreator(runner, 0))
      else WithRunner(state, r, runner.(stage := Creating))
  }

  function CreateStep(state: State, r: nat): State
    requires r < |state.runners| && InTurn(state.runners[r])
  {
    var runner := state.runners[r];
    var create := CreateFirst(state.rows, KeyOf(runner), NewTotal(runner), runner.pass.currency);
    if create.1 then Won(state, r, create.0) else WithRunner(state, r, NextCreator(runner, 0))
  }

  function PostStep(state: State, r: nat, throws: bool): State
    requires r < |state.runners| && InTurn(state.runners[r])
  {
    var runner := state.runners[r];
    var key := KeyOf(runner);
    if throws then WithRunner(state, r, runner.(stage := Undoing))
    else
      WithRunner(
        state.(postings := state.postings + [LedgerPosting(key, CreditOf(runner), NewTotal(runner), r)],
               claims := state.claims[key := SetStatus(Stack(state.claims, key), r, Posted)]),
        r, NextCreator(runner, CreditOf(runner)))
  }

  /** The rollback is itself a conditional write. If it matches, the newest stretch is gone. */
  function UndoStep(state: State, r: nat): State
    requires r < |state.runners| && InTurn(state.runners[r])
  {
    var runner := state.runners[r];
    var key := KeyOf(runner);
    var segments := Stack(state.claims, key);
    var update := UpdateMany(state.rows, key, NewTotal(runner), Previous(runner));
    var remaining :=
      if !update.1 then SetStatus(segments, r, Stranded)
      else if segments == [] then []
      else segments[..|segments| - 1];
    WithRunner(state.(rows := update.0, claims := state.claims[key := remaining]), r, runner.(stage := Over))
  }

  ghost function Step(state: State, event: Event): State
  {
    match event
    case Begin(pass, spendable) =>
      var budget := spendable - CampaignAccrued(state.rows, pass.campaign);
      state.(runners := state.runners + [Runner(pass, state.rows, budget, budget, 0, Claiming)])
    case Advance(r, throws) =>
      if |state.runners| <= r then state
      else if !InTurn(state.runners[r]) then WithRunner(state, r, state.runners[r].(stage := Over))
      else
        match state.runners[r].stage
        case Claiming => ClaimStep(state, r)
        case Creating => CreateStep(state, r)
        case Posting => PostStep(state, r, throws)
        case Undoing => UndoStep(state, r)
        case Over => state
  }

  ghost function Run(events: seq<Event>): State
  {
    if events == [] then State(map[], [], [], map[])
    else Step(Run(events[..|events| - 1]), events[|events| - 1])
  }

  // The invariant.

  function Top(segments: seq<Segment>): int
  {
    if segments == [] then 0 else segments[|segments| - 1].high
  }

  /** Each stretch starts where the one below it ends, the first at 0. */
  predicate Contiguous(segments: seq<Segment>)
  {
    segments == []
    || (segments[|segments| - 1].low == Top(segments[..|segments| - 1]) && Contiguous(segments[..|segments| - 1]))
  }

  /** Stretches are not empty and never overlap. */
  predicate Ordered(segments: seq<Segment>)
  {
    && (forall i :: 0 <= i < |segments| ==> segments[i].low < segments[i].high)
    && (forall i, j :: 0 <= i < j < |segments| ==> segments[i].high <= segments[j].low)
  }

  predicate WellStacked(segments: seq<Segment>)
  {
    Contiguous(segments) && Ordered(segments)
  }

  /** The pass is between winning its claim and posting it or giving it back. */
  predicate Holds(runner: Runner, key: EarningKey)
  {
    (runner.stage == Posting || runner.stage == Undoing) && InTurn(runner) && KeyOf(runner) == key
  }

  /** The pass is one that may credit this creator: on the campaign, listing them, and not pausing them. */
  predicate Serves(pass: Pass, key: EarningKey)
  {
    pass.campaign == key.campaign && key.creator in pass.creatorIds && key.creator !in pass.paused
  }

  ghost predicate Justified(runners: seq<Runner>, key: EarningKey, segment: Segment)
  {
    && segment.owner < |runners|
    && Serves(runners[segment.owner].pass, key)
    && segment.high <= runners[segment.owner].pass.entitled(key.creator)
    && (segment.status == Outstanding ==>
          && Holds(runners[segment.owner], key)
          && segment.low == Previous(runners[segment.owner])
          && segment.high == NewTotal(runners[segment.owner]))
  }

  ghost predicate TotalIsStack(state: State, key: EarningKey)
  {
    var segments := Stack(state.claims, key);
    && WellStacked(segments)
    && Accrued(state.rows, key) == Top(segments)
    && (key !in state.rows ==> segments == [])
    && forall i :: 0 <= i < |segments| ==> Justified(state.runners, key, segments[i])
  }

  ghost predicate RunnerOk(state: State, r: nat)
    requires r < |state.runners|
  {
    var runner := state.runners[r];
    && (InTurn(runner) && runner.stage != Claiming ==> 0 < CreditOf(runner))
    && (InTurn(runner) && runner.stage == Creating ==> Previous(runner) == 0)
    && (runner.stage == Posting || runner.stage == Undoing ==>
          && InTurn(runner)
          && Segment(r, Previous(runner), NewTotal(runner), Outstanding) in Stack(state.claims, KeyOf(runner)))
  }

  ghost predicate PostingOk(state: State, posting: LedgerPosting)
  {
    exists i :: 0 <= i < |Stack(state.claims, posting.key)| && Backs(Stack(state.claims, posting.key)[i], posting)
  }

  predicate Backs(segment: Segment, posting: LedgerPosting)
  {
    segment.status == Posted && segment.high == posting.total && segment.high - segment.low == posting.amount
  }

  ghost predicate ReferencesDistinct(postings: seq<LedgerPosting>)
  {
    forall i, j :: 0 <= i < j < |postings| ==>
      postings[i].key != postings[j].key || postings[i].total != postings[j].total
  }

  function PostedTo(key: EarningKey): LedgerPosting -> int
  {
    (posting: LedgerPosting) => if posting.key == key then posting.amount else 0
  }

  /** What the ledger has credited to a creator for a campaign. */
  function PostedMinor(state: State, key: EarningKey): int
  {
    Sum(state.postings, PostedTo(key))
  }

  function Width(): Segment -> int
  {
    (segment: Segment) => segment.high - segment.low
  }

  function WidthIf(posted: bool): Segment -> int
  {
    (segment: Segment) => if (segment.status == Posted) == posted then segment.high - segment.low else 0
  }

  ghost predicate Inv(state: State)
  {
    && (forall key :: TotalIsStack(state, key))
    && (forall r :: 0 <= r < |state.runners| ==> RunnerOk(state, r))
    && PostingsInv(state)
  }

  ghost predicate PostingsInv(state: State)
  {
    && (forall i :: 0 <= i < |state.postings| ==> PostingOk(state, state.postings[i]))
    && ReferencesDistinct(state.postings)
    && forall key :: PostedMinor(state, key) == Sum(Stack(state.claims, key), WidthIf(true))
  }

  // Stack operations.

  lemma PushKeeps(segments: seq<Segment>, segment: Segment)
    requires WellStacked(segments) && segment.low == Top(segments) && segment.low < segment.high
    ensures WellStacked(segments + [segment])
  {
    var pushed := segments + [segment];
    assert pushed[..|pushed| - 1] == segments;
    if segments != [] {
      assert segments[|segments| - 1].low < segments[|segments| - 1].high;
    }
  }

  lemma PopKeeps(segments: seq<Segment>)
    requires WellStacked(segments) && segments != []
    ensures WellStacked(segments[..|segments| - 1])
    ensures Top(segments[..|segments| - 1]) == segments[|segments| - 1].low
  {
  }

  lemma {:induction false} RestatusContiguous(segments: seq<Segment>, j: nat, status: Status)
    requires Contiguous(segments) && j < |segments|
    ensures Contiguous(segments[j := segments[j].(status := status)])
    ensures Top(segments[j := segments[j].(status := status)]) == Top(segments)
  {
    var n := |segments| - 1;
    var marked := segments[j := segments[j].(status := status)];
    if j < n {
      RestatusContiguous(segments[..n], j, status);
      assert marked[..n] == segments[..n][j := segments[j].(status := status)];
    } else {
      assert marked[..n] == segments[..n];
    }
  }

  lemma RestatusKeeps(segments: seq<Segment>, j: nat, status: Status)
    requires WellStacked(segments) && j < |segments|
    ensures WellStacked(segments[j := segments[j].(status := status)])
    ensures Top(segments[j := segments[j].(status := status)]) == Top(segments)
  {
    RestatusContiguous(segments, j, status);
  }

  /** A pass holds at most one open stretch, the one ending at its new total. */
  lemma OpenSegmentIsUnique(state: State, r: nat, j: nat, status: Status)
    requires r < |state.runners| && InTurn(state.runners[r])
    requires TotalIsStack(state, KeyOf(state.runners[r]))
    requires j < |Stack(state.claims, KeyOf(state.runners[r]))|
    requires Stack(state.claims, KeyOf(state.runners[r]))[j]
             == Segment(r, Previous(state.runners[r]), NewTotal(state.runners[r]), Outstanding)
    ensures
      var segments := Stack(state.claims, KeyOf(state.runners[r]));
      && SetStatus(segments, r, status) == segments[j := segments[j].(status := status)]
      && forall i :: 0 <= i < |segments| && segments[i].owner == r && segments[i].status == Outstanding ==> i == j
  {
    var segments := Stack(state.claims, KeyOf(state.runners[r]));
    forall i | 0 <= i < |segments| && segments[i].owner == r && segments[i].status == Outstanding
      ensures i == j
    {
      assert Justified(state.runners, KeyOf(state.runners[r]), segments[i]);
      assert segments[i].high == segments[j].high;
    }
  }

  // Every step keeps the invariant.

  lemma BeginKeeps(state: State, runner: Runner)
    requires Inv(state) && runner.stage == Claiming
    ensures Inv(state.(runners := state.runners + [runner]))
  {
    var after := state.(runners := state.runners + [runner]);
    forall key ensures TotalIsStack(after, key) {
      assert TotalIsStack(state, key);
    }
    forall r | 0 <= r < |after.runners| ensures RunnerOk(after, r) {
      assert r < |state.runners| ==> RunnerOk(state, r);
    }
    forall i | 0 <= i < |after.postings| ensures PostingOk(after, after.postings[i]) {
      assert PostingOk(state, state.postings[i]);
    }
  }

  /** A pass that holds nothing before and after only moves its own position. */
  lemma MoveKeeps(state: State, r: nat, runner: Runner)
    requires Inv(state) && r < |state.runners|
    requires runner.pass == state.runners[r].pass
    requires state.runners[r].stage != Posting && state.runners[r].stage != Undoing
    requires runner.stage == Claiming || runner.stage == Over
             || (runner.stage == Creating && InTurn(runner) && 0 < CreditOf(runner) && Previous(runner) == 0)
    ensures Inv(WithRunner(state, r, runner))
  {
    var after := WithRunner(state, r, runner);
    forall key ensures TotalIsStack(after, key) {
      assert TotalIsStack(state, key);
      var segments := Stack(state.claims, key);
      forall i | 0 <= i < |segments| ensures Justified(after.runners, key, segments[i]) {
        assert Justified(state.runners, key, segments[i]);
      }
    }
    forall q | 0 <= q < |after.runners| ensures RunnerOk(after, q) {
      assert RunnerOk(state, q);
    }
    forall i | 0 <= i < |after.postings| ensures PostingOk(after, after.postings[i]) {
      assert PostingOk(state, state.postings[i]);
    }
  }

  /** A stretch stays justified when a pass without an open claim changes its stage. */
  lemma SegmentStays(runners: seq<Runner>, r: nat, runner: Runner, key: EarningKey, segment: Segment)
    requires r < |runners| && runner.pass == runners[r].pass
    requires runners[r].stage != Posting && runners[r].stage != Undoing
    requires Justified(runners, key, segment)
    ensures Justified(runners[r := runner], key, segment)
  {
  }

  lemma StackStays(runners: seq<Runner>, r: nat, runner: Runner, key: EarningKey, segments: seq<Segment>)
    requires r < |runners| && runner.pass == runners[r].pass
    requires runners[r].stage != Posting && runners[r].stage != Undoing
    requires forall i :: 0 <= i < |segments| ==> Justified(runners, key, segments[i])
    ensures forall i :: 0 <= i < |segments| ==> Justified(runners[r := runner], key, segments[i])
  {
    forall i | 0 <= i < |segments| ensures Justified(runners[r := runner], key, segments[i]) {
      SegmentStays(runners, r, runner, key, segments[i]);
    }
  }

  lemma CreditWithinEntitlement(runner: Runner)
    requires InTurn(runner) && 0 < CreditOf(runner)
    ensures Serves(runner.pass, KeyOf(runner))
    ensures NewTotal(runner) <= runner.pass.entitled(KeyOf(runner).creator)
  {
  }

  lemma WonOwnTotal(state: State, r: nat, rows: Earnings)
    requires Inv(state) && r < |state.runners| && InTurn(state.runners[r]) && WonFrom(state, r, rows)
    ensures TotalIsStack(Won(state, r, rows), KeyOf(state.runners[r]))
  {
    var runner, key := state.runners[r], KeyOf(state.runners[r]);
    var after := runner.(stage := Posting);
    var segments, segment := Stack(state.claims, key), Segment(r, Previous(runner), NewTotal(runner), Outstanding);
    var pushed := segments + [segment];
    assert TotalIsStack(state, key);
    CreditWithinEntitlement(runner);
    PushKeeps(segments, segment);
    assert Stack(Won(state, r, rows).claims, key) == pushed;
    StackStays(state.runners, r, after, key, segments);
    assert Justified(state.runners[r := after], key, segment);
  }

  lemma WonKeepsTotals(state: State, r: nat, rows: Earnings, key: EarningKey)
    requires Inv(state) && r < |state.runners| && InTurn(state.runners[r]) && WonFrom(state, r, rows)
    ensures TotalIsStack(Won(state, r, rows), key)
  {
    if key == KeyOf(state.runners[r]) {
      WonOwnTotal(state, r, rows);
    } else {
      var after := state.runners[r].(stage := Posting);
      var segments := Stack(state.claims, key);
      assert TotalIsStack(state, key);
      StackStays(state.runners, r, after, key, segments);
      assert Lookup(rows, key) == Lookup(state.rows, key);
    }
  }

  /** The write that won: it found the previous total and left the new one. */
  ghost predicate WonFrom(state: State, r: nat, rows: Earnings)
    requires r < |state.runners| && InTurn(state.runners[r])
  {
    var runner := state.runners[r];
    var key := KeyOf(runner);
    && (runner.stage == Claiming || runner.stage == Creating)
    && 0 < CreditOf(runner)
    && Accrued(state.rows, key) == Previous(runner)
    && Lookup(rows, key) == Some(NewTotal(runner))
    && forall other :: other != key ==> Lookup(rows, other) == Lookup(state.rows, other)
  }

  lemma WonKeepsRunners(state: State, r: nat, rows: Earnings, q: nat)
    requires Inv(state) && r < |state.runners| && InTurn(state.runners[r]) && WonFrom(state, r, rows)
    requires q < |state.runners|
    ensures RunnerOk(Won(state, r, rows), q)
  {
    var claims, key := Won(state, r, rows).claims, KeyOf(state.runners[r]);
    assert RunnerOk(state, q);
    assert Stack(claims, key)[|Stack(state.claims, key)|]
           == Segment(r, Previous(state.runners[r]), NewTotal(state.runners[r]), Outstanding);
    assert forall other, segment :: segment in Stack(state.claims, other) ==> segment in Stack(claims, other);
  }

  lemma WonKeepsPostings(state: State, r: nat, rows: Earnings)
    requires Inv(state) && r < |state.runners| && InTurn(state.runners[r]) && WonFrom(state, r, rows)
    ensures PostingsInv(Won(state, r, rows))
  {
    var after, key := Won(state, r, rows), KeyOf(state.runners[r]);
    forall i | 0 <= i < |after.postings| ensures PostingOk(after, after.postings[i]) {
      var posting := state.postings[i];
      assert PostingOk(state, posting);
      var j :| 0 <= j < |Stack(state.claims, posting.key)| && Backs(Stack(state.claims, posting.key)[j], posting);
      assert Backs(Stack(after.claims, posting.key)[j], posting);
    }
    var segment := Segment(r, Previous(state.runners[r]), NewTotal(state.runners[r]), Outstanding);
    forall other ensures PostedMinor(after, other) == Sum(Stack(after.claims, other), WidthIf(true)) {
      assert PostedMinor(state, other) == Sum(Stack(state.claims, other), WidthIf(true));
      SumAppend(Stack(state.claims, key), segment, WidthIf(true));
    }
  }

  lemma WonKeeps(state: State, r: nat, rows: Earnings)
    requires Inv(state) && r < |state.runners| && InTurn(state.runners[r]) && WonFrom(state, r, rows)
    ensures Inv(Won(state, r, rows))
  {
    var after := Won(state, r, rows);
    forall key ensures TotalIsStack(after, key) {
      WonKeepsTotals(state, r, rows, key);
    }
    forall q | 0 <= q < |after.runners| ensures RunnerOk(after, q) {
      WonKeepsRunners(state, r, rows, q);
    }
    WonKeepsPostings(state, r, rows);
  }

  lemma ClaimStepKeeps(state: State, r: nat)
    requires Inv(state) && r < |state.runners| && InTurn(state.runners[r]) && state.runners[r].stage == Claiming
    ensures Inv(ClaimStep(state, r))
  {
    var runner := state.runners[r];
    var update := UpdateMany(state.rows, KeyOf(runner), Previous(runner), NewTotal(runner));
    if CreditOf(runner) <= 0 || (!update.1 && Previous(runner) != 0) {
      MoveKeeps(state, r, NextCreator(runner, 0));
    } else if update.1 {
      WonKeeps(state, r, update.0);
    } else {
      MoveKeeps(state, r, runner.(stage := Creating));
    }
  }

  lemma CreateStepKeeps(state: State, r: nat)
    requires Inv(state) && r < |state.runners| && InTurn(state.runners[r]) && state.runners[r].stage == Creating
    ensures Inv(CreateStep(state, r))
  {
    var runner := state.runners[r];
    assert RunnerOk(state, r);
    var create := CreateFirst(state.rows, KeyOf(runner), NewTotal(runner), runner.pass.currency);
    if create.1 {
      WonKeeps(state, r, create.0);
    } else {
      MoveKeeps(state, r, NextCreator(runner, 0));
    }
  }

  /** The one open stretch of a pass that holds a claim. */
  ghost function OpenIndex(state: State, r: nat): (j: nat)
    requires r < |state.runners| && RunnerOk(state, r)
    requires state.runners[r].stage == Posting || state.runners[r].stage == Undoing
    ensures
      var runner := state.runners[r];
      var segments := Stack(state.claims, KeyOf(runner));
      j < |segments| && segments[j] == Segment(r, Previous(runner), NewTotal(runner), Outstanding)
  {
    var runner := state.runners[r];
    var segments := Stack(state.claims, KeyOf(runner));
    var j :| 0 <= j < |segments| && segments[j] == Segment(r, Previous(runner), NewTotal(runner), Outstanding);
    j
  }

  lemma ThrowKeeps(state: State, r: nat)
    requires Inv(state) && r < |state.runners| && state.runners[r].stage == Posting
    ensures InTurn(state.runners[r]) && Inv(PostStep(state, r, true))
  {
    assert RunnerOk(state, r);
    var after := PostStep(state, r, true);
    forall key ensures TotalIsStack(after, key) {
      assert TotalIsStack(state, key);
      var segments := Stack(state.claims, key);
      forall i | 0 <= i < |segments| ensures Justified(after.runners, key, segments[i]) {
        assert Justified(state.runners, key, segments[i]);
      }
    }
    forall q | 0 <= q < |after.runners| ensures RunnerOk(after, q) {
      assert RunnerOk(state, q);
    }
    forall i | 0 <= i < |after.postings| ensures PostingOk(after, after.postings[i]) {
      assert PostingOk(state, state.postings[i]);
    }
  }

  /** The pass lets go of its claim: whatever else is on the stacks stays justified. */
  lemma LettingGoKeeps(state: State, r: nat, runner: Runner, key: EarningKey, segment: Segment)
    requires r < |state.runners| && runner.pass == state.runners[r].pass && InTurn(state.runners[r])
    requires Justified(state.runners, key, segment)
    requires segment.owner == r && segment.status == Outstanding ==> key != KeyOf(state.runners[r])
    ensures Justified(state.runners[r := runner], key, segment)
  {
  }

  lemma RestatusOwnTotal(state: State, r: nat, runner: Runner, status: Status)
    requires Inv(state) && r < |state.runners| && status != Outstanding
    requires state.runners[r].stage == Posting || state.runners[r].stage == Undoing
    requires InTurn(state.runners[r]) && runner.pass == state.runners[r].pass
    ensures
      var mine := KeyOf(state.runners[r]);
      var marked := SetStatus(Stack(state.claims, mine), r, status);
      && WellStacked(marked)
      && Top(marked) == Top(Stack(state.claims, mine))
      && forall i :: 0 <= i < |marked| ==> Justified(state.runners[r := runner], mine, marked[i])
  {
    assert RunnerOk(state, r);
    var j := OpenIndex(state, r);
    var mine := KeyOf(state.runners[r]);
    assert TotalIsStack(state, mine);
    OpenSegmentIsUnique(state, r, j, status);
    var segments := Stack(state.claims, mine);
    RestatusKeeps(segments, j, status);
    forall i | 0 <= i < |segments| && i != j ensures Justified(state.runners[r := runner], mine, segments[i]) {
      LettingGoKeeps(state, r, runner, mine, segments[i]);
    }
    assert Justified(state.runners, mine, segments[j]);
  }

  lemma RestatusTotals(state: State, r: nat, runner: Runner, status: Status, key: EarningKey)
    requires Inv(state) && r < |state.runners| && status != Outstanding
    requires state.runners[r].stage == Posting || state.runners[r].stage == Undoing
    requires InTurn(state.runners[r]) && runner.pass == state.runners[r].pass
    ensures
      var mine := KeyOf(state.runners[r]);
      var claims := state.claims[mine := SetStatus(Stack(state.claims, mine), r, status)];
      TotalIsStack(WithRunner(state.(claims := claims), r, runner), key)
  {
    var mine := KeyOf(state.runners[r]);
    assert TotalIsStack(state, key);
    if key == mine {
      RestatusOwnTotal(state, r, runner, status);
    } else {
      var segments := Stack(state.claims, key);
      forall i | 0 <= i < |segments| ensures Justified(state.runners[r := runner], key, segments[i]) {
        LettingGoKeeps(state, r, runner, key, segments[i]);
      }
    }
  }

  /** Marking changes one stretch of the pass's own and keeps every other. */
  lemma MarkedSegments(state: State, r: nat, status: Status) returns (j: nat)
    requires Inv(state) && r < |state.runners| && status != Outstanding
    requires state.runners[r].stage == Posting || state.runners[r].stage == Undoing
    ensures InTurn(state.runners[r])
    ensures
      var segments := Stack(state.claims, KeyOf(state.runners[r]));
      && j < |segments|
      && segments[j] == Segment(r, Previous(state.runners[r]), NewTotal(state.runners[r]), Outstanding)
      && SetStatus(segments, r, status) == segments[j := segments[j].(status := status)]
  {
    assert RunnerOk(state, r);
    j := OpenIndex(state, r);
    assert TotalIsStack(state, KeyOf(state.runners[r]));
    OpenSegmentIsUnique(state, r, j, status);
  }

  lemma MarkingKeepsOthers(segments: seq<Segment>, r: nat, status: Status, segment: Segment)
    requires segment in segments && segment.owner != r
    ensures segment in SetStatus(segments, r, status)
  {
    var i :| 0 <= i < |segments| && segments[i] == segment;
    assert SetStatus(segments, r, status)[i] == segment;
  }

  lemma MarkingKeepsBacking(state: State, r: nat, mine: EarningKey, status: Status, posting: LedgerPosting)
    requires PostingOk(state, posting)
    ensures PostingOk(state.(claims := state.claims[mine := SetStatus(Stack(state.claims, mine), r, status)]), posting)
  {
    var claims := state.claims[mine := SetStatus(Stack(state.claims, mine), r, status)];
    var b :| 0 <= b < |Stack(state.claims, posting.key)| && Backs(Stack(state.claims, posting.key)[b], posting);
    assert Backs(Stack(claims, posting.key)[b], posting);
  }

  /** Other passes keep their open stretches, and posted stretches stay posted. */
  lemma RestatusFrame(state: State, r: nat, status: Status)
    requires Inv(state) && r < |state.runners| && status != Outstanding
    requires state.runners[r].stage == Posting || state.runners[r].stage == Undoing
    ensures InTurn(state.runners[r])
    ensures
      var mine := KeyOf(state.runners[r]);
      var claims := state.claims[mine := SetStatus(Stack(state.claims, mine), r, status)];
      && (forall key, segment ::
            segment in Stack(state.claims, key) && segment.owner != r ==> segment in Stack(claims, key))
      && (forall i :: 0 <= i < |state.postings| ==>
            PostingOk(state.(claims := claims), state.postings[i]))
      && (forall key :: Sum(Stack(claims, key), WidthIf(true)) ==
            Sum(Stack(state.claims, key), WidthIf(true))
            + if key == mine && status == Posted then CreditOf(state.runners[r]) else 0)
  {
    var j := MarkedSegments(state, r, status);
    var mine := KeyOf(state.runners[r]);
    var segments := Stack(state.claims, mine);
    SumUpdate(segments, j, segments[j].(status := status), WidthIf(true));
    forall segment | segment in segments && segment.owner != r ensures segment in SetStatus(segments, r, status) {
      MarkingKeepsOthers(segments, r, status, segment);
    }
    forall i | 0 <= i < |state.postings|
      ensures PostingOk(state.(claims := state.claims[mine := SetStatus(segments, r, status)]), state.postings[i])
    {
      assert PostingOk(state, state.postings[i]);
      MarkingKeepsBacking(state, r, mine, status, state.postings[i]);
    }
  }

  lemma PostStepKeeps(state: State, r: nat)
    requires Inv(state) && r < |state.runners| && state.runners[r].stage == Posting
    ensures InTurn(state.runners[r]) && Inv(PostStep(state, r, false))
  {
    assert RunnerOk(state, r);
    var runner := state.runners[r];
    var mine, next := KeyOf(runner), NextCreator(runner, CreditOf(runner));
    var after := PostStep(state, r, false);
    forall key ensures TotalIsStack(after, key) {
      RestatusTotals(state, r, next, Posted, key);
    }
    RestatusFrame(state, r, Posted);
    forall q | 0 <= q < |after.runners| ensures RunnerOk(after, q) {
      assert RunnerOk(state, q);
    }
    PostStepKeepsPostings(state, r);
  }

  /** The new posting is backed and its reference is new; the others stay. */
  lemma PostStepKeepsPostings(state: State, r: nat)
    requires Inv(state) && r < |state.runners| && state.runners[r].stage == Posting
    ensures InTurn(state.runners[r]) && PostingsInv(PostStep(state, r, false))
  {
    assert RunnerOk(state, r);
    var runner, after := state.runners[r], PostStep(state, r, false);
    RestatusFrame(state, r, Posted);
    PostedReferenceIsNew(state, r);
    NewPostingIsBacked(state, r);
    forall i | 0 <= i < |after.postings| ensures PostingOk(after, after.postings[i]) {
      if i < |state.postings| {
        assert PostingOk(state.(claims := after.claims), state.postings[i]);
      }
    }
    forall key ensures PostedMinor(after, key) == Sum(Stack(after.claims, key), WidthIf(true)) {
      assert PostedMinor(state, key) == Sum(Stack(state.claims, key), WidthIf(true));
      SumAppend(state.postings, LedgerPosting(KeyOf(runner), CreditOf(runner), NewTotal(runner), r), PostedTo(key));
    }
  }

  lemma NewPostingIsBacked(state: State, r: nat)
    requires Inv(state) && r < |state.runners| && state.runners[r].stage == Posting
    ensures InTurn(state.runners[r])
    ensures
      var runner := state.runners[r];
      PostingOk(PostStep(state, r, false), LedgerPosting(KeyOf(runner), CreditOf(runner), NewTotal(runner), r))
  {
    assert RunnerOk(state, r);
    var runner := state.runners[r];
    var j := OpenIndex(state, r);
    assert TotalIsStack(state, KeyOf(runner));
    OpenSegmentIsUnique(state, r, j, Posted);
    assert Backs(Stack(PostStep(state, r, false).claims, KeyOf(runner))[j],
                 LedgerPosting(KeyOf(runner), CreditOf(runner), NewTotal(runner), r));
  }

  /** No posted stretch can end where an open one ends. */
  lemma PostedReferenceIsNew(state: State, r: nat)
    requires Inv(state) && r < |state.runners| && state.runners[r].stage == Posting
    ensures InTurn(state.runners[r])
    ensures forall i :: 0 <= i < |state.postings| ==>
              state.postings[i].key != KeyOf(state.runners[r]) || state.postings[i].total != NewTotal(state.runners[r])
  {
    assert RunnerOk(state, r);
    var j := OpenIndex(state, r);
    var key := KeyOf(state.runners[r]);
    var segments := Stack(state.claims, key);
    assert TotalIsStack(state, key);
    forall i | 0 <= i < |state.postings| && state.postings[i].key == key
      ensures state.postings[i].total != NewTotal(state.runners[r])
    {
      assert PostingOk(state, state.postings[i]);
      var b :| 0 <= b < |segments| && Backs(segments[b], state.postings[i]);
      assert b < j || j < b;
    }
  }

  lemma UndoStepKeeps(state: State, r: nat)
    requires Inv(state) && r < |state.runners| && state.runners[r].stage == Undoing
    ensures InTurn(state.runners[r]) && Inv(UndoStep(state, r))
  {
    assert RunnerOk(state, r);
    var runner := state.runners[r];
    var mine := KeyOf(runner);
    if Lookup(state.rows, mine) == Some(NewTotal(runner)) {
      UndoPops(state, r);
    } else {
      var over := runner.(stage := Over);
      var after := UndoStep(state, r);
      forall key ensures TotalIsStack(after, key) {
        RestatusTotals(state, r, over, Stranded, key);
      }
      RestatusFrame(state, r, Stranded);
      forall q | 0 <= q < |after.runners| ensures RunnerOk(after, q) {
        assert RunnerOk(state, q);
      }
      forall i | 0 <= i < |after.postings| ensures PostingOk(after, after.postings[i]) {
        assert PostingOk(state.(claims := after.claims), state.postings[i]);
      }
      forall key ensures PostedMinor(after, key) == Sum(Stack(after.claims, key), WidthIf(true)) {
        assert PostedMinor(state, key) == Sum(Stack(state.claims, key), WidthIf(true));
      }
    }
  }

  /** A rollback that matches finds its own stretch on top. */
  lemma OwnSegmentIsOnTop(state: State, r: nat)
    requires Inv(state) && r < |state.runners| && state.runners[r].stage == Undoing && InTurn(state.runners[r])
    requires Lookup(state.rows, KeyOf(state.runners[r])) == Some(NewTotal(state.runners[r]))
    ensures
      var runner := state.runners[r];
      var segments := Stack(state.claims, KeyOf(runner));
      segments != [] && segments[|segments| - 1] == Segment(r, Previous(runner), NewTotal(runner), Outstanding)
  {
    assert RunnerOk(state, r);
    var j := OpenIndex(state, r);
    var segments := Stack(state.claims, KeyOf(state.runners[r]));
    assert TotalIsStack(state, KeyOf(state.runners[r]));
    assert segments[|segments| - 1].low < segments[|segments| - 1].high;
  }

  /** On its own stack a matching rollback takes off the top stretch and restores the total below it. */
  lemma UndoPopsOwn(state: State, r: nat)
    requires Inv(state) && r < |state.runners| && state.runners[r].stage == Undoing && InTurn(state.runners[r])
    requires Lookup(state.rows, KeyOf(state.runners[r])) == Some(NewTotal(state.runners[r]))
    ensures TotalIsStack(UndoStep(state, r), KeyOf(state.runners[r]))
  {
    var runner, mine := state.runners[r], KeyOf(state.runners[r]);
    var segments := Stack(state.claims, mine);
    var n := |segments| - 1;
    OwnSegmentIsOnTop(state, r);
    assert TotalIsStack(state, mine);
    OpenSegmentIsUnique(state, r, n, Stranded);
    PopKeeps(segments);
    var after := UndoStep(state, r);
    assert Stack(after.claims, mine) == segments[..n];
    forall i | 0 <= i < n ensures Justified(after.runners, mine, segments[i]) {
      LettingGoKeeps(state, r, after.runners[r], mine, segments[i]);
    }
  }

  lemma UndoKeepsOther(state: State, r: nat, key: EarningKey)
    requires r < |state.runners| && InTurn(state.runners[r]) && key != KeyOf(state.runners[r])
    requires TotalIsStack(state, key)
    ensures TotalIsStack(UndoStep(state, r), key)
  {
    var after, segments := UndoStep(state, r), Stack(state.claims, key);
    assert Lookup(after.rows, key) == Lookup(state.rows, key) && Stack(after.claims, key) == segments;
    forall i | 0 <= i < |segments| ensures Justified(after.runners, key, segments[i]) {
      LettingGoKeeps(state, r, after.runners[r], key, segments[i]);
    }
  }

  lemma UndoPops(state: State, r: nat)
    requires Inv(state) && r < |state.runners| && state.runners[r].stage == Undoing && InTurn(state.runners[r])
    requires Lookup(state.rows, KeyOf(state.runners[r])) == Some(NewTotal(state.runners[r]))
    ensures Inv(UndoStep(state, r))
  {
    var after := UndoStep(state, r);
    UndoPopsOwn(state, r);
    forall key ensures TotalIsStack(after, key) {
      if key != KeyOf(state.runners[r]) {
        assert TotalIsStack(state, key);
        UndoKeepsOther(state, r, key);
      }
    }
    UndoPopsFrame(state, r);
    forall q | 0 <= q < |after.runners| ensures RunnerOk(after, q) {
      assert RunnerOk(state, q);
    }
  }

  lemma UndoPopsFrame(state: State, r: nat)
    requires Inv(state) && r < |state.runners| && state.runners[r].stage == Undoing && InTurn(state.runners[r])
    requires Lookup(state.rows, KeyOf(state.runners[r])) == Some(NewTotal(state.runners[r]))
    ensures PostingsInv(UndoStep(state, r))
    ensures forall key, segment :: segment in Stack(state.claims, key) && segment.owner != r ==>
                                     segment in Stack(UndoStep(state, r).claims, key)
  {
    var mine := KeyOf(state.runners[r]);
    var segments := Stack(state.claims, mine);
    var n := |segments| - 1;
    OwnSegmentIsOnTop(state, r);
    var after := UndoStep(state, r);
    assert Stack(after.claims, mine) == segments[..n];
    assert segments == segments[..n] + [segments[n]];
    forall i | 0 <= i < |after.postings| ensures PostingOk(after, after.postings[i]) {
      var posting := state.postings[i];
      assert PostingOk(state, posting);
      var b :| 0 <= b < |Stack(state.claims, posting.key)| && Backs(Stack(state.claims, posting.key)[b], posting);
      assert Backs(Stack(after.claims, posting.key)[b], posting);
    }
    forall key ensures PostedMinor(after, key) == Sum(Stack(after.claims, key), WidthIf(true)) {
      assert PostedMinor(state, key) == Sum(Stack(state.claims, key), WidthIf(true));
      SumAppend(segments[..n], segments[n], WidthIf(true));
    }
  }

  lemma StepKeeps(state: State, event: Event)
    requires Inv(state)
    ensures Inv(Step(state, event))
  {
    match event
    case Begin(pass, spendable) =>
      var budget := spendable - CampaignAccrued(state.rows, pass.campaign);
      BeginKeeps(state, Runner(pass, state.rows, budget, budget, 0, Claiming));
    case Advance(r, throws) =>
      if r < |state.runners| {
        assert RunnerOk(state, r);
        if !InTurn(state.runners[r]) {
          MoveKeeps(state, r, state.runners[r].(stage := Over));
        } else {
          match state.runners[r].stage
          case Claiming => ClaimStepKeeps(state, r);
          case Creating => CreateStepKeeps(state, r);
          case Posting =>
            if throws { ThrowKeeps(state, r); } else { PostStepKeeps(state, r); }
          case Undoing => UndoStepKeeps(state, r);
          case Over =>
        }
      }
  }

  lemma {:induction false} RunKeeps(events: seq<Event>)
    ensures Inv(Run(events))
  {
    if events != [] {
      RunKeeps(events[..|events| - 1]);
      StepKeeps(Run(events[..|events| - 1]), events[|events| - 1]);
    }
  }

  // What holds after every schedule.

  lemma {:induction false} StackWidth(segments: seq<Segment>)
    requires WellStacked(segments)
    ensures Sum(segments, Width()) == Top(segments)
  {
    if segments != [] {
      PopKeeps(segments);
      StackWidth(segments[..|segments| - 1]);
    }
  }

  /** The running total is what was posted plus every claim won but neither posted nor given back. */
  lemma TotalIsPostedPlusOpen(events: seq<Event>, key: EarningKey)
    ensures
      var state := Run(events);
      && Accrued(state.rows, key) == PostedMinor(state, key) + Sum(Stack(state.claims, key), WidthIf(false))
      && PostedMinor(state, key) <= Accrued(state.rows, key)
  {
    RunKeeps(events);
    var state := Run(events);
    assert TotalIsStack(state, key);
    var segments := Stack(state.claims, key);
    StackWidth(segments);
    SumSplit(segments, Width(), WidthIf(true), WidthIf(false));
    SumNonNegative(segments, WidthIf(false));
  }

  /** A running total never exceeds an entitlement some pass computed for that creator, listed and unpaused. */
  lemma TotalWithinEntitlement(events: seq<Event>, key: EarningKey)
    ensures
      var state := Run(events);
      0 < Accrued(state.rows, key) ==>
        exists r :: 0 <= r < |state.runners|
                    && Serves(state.runners[r].pass, key)
                    && Accrued(state.rows, key) <= state.runners[r].pass.entitled(key.creator)
  {
    RunKeeps(events);
    var state := Run(events);
    assert TotalIsStack(state, key);
    var segments := Stack(state.claims, key);
    if 0 < Accrued(state.rows, key) {
      assert Justified(state.runners, key, segments[|segments| - 1]);
    }
  }

  /** Two passes cannot both credit the same amount: no reference is ever posted twice. */
  lemma NoReferencePostedTwice(events: seq<Event>)
    ensures ReferencesDistinct(Run(events).postings)
    ensures forall i :: 0 <= i < |Run(events).postings| ==> 0 < Run(events).postings[i].amount
  {
    RunKeeps(events);
    var state := Run(events);
    forall i | 0 <= i < |state.postings| ensures 0 < state.postings[i].amount {
      assert PostingOk(state, state.postings[i]);
      assert TotalIsStack(state, state.postings[i].key);
    }
  }

  /** A rollback takes back its own claim or nothing, and touches no other total. */
  lemma RollbackTakesOnlyItsOwn(events: seq<Event>, r: nat)
    requires r < |Run(events).runners| && Run(events).runners[r].stage == Undoing
    ensures
      var state := Run(events);
      && InTurn(state.runners[r])
      && var key := KeyOf(state.runners[r]);
         var after := Step(state, Advance(r, false));
         var segments := Stack(state.claims, key);
         && (forall other :: other != key ==> Lookup(after.rows, other) == Lookup(state.rows, other))
         && (after.rows != state.rows ==>
               && segments != []
               && segments[|segments| - 1].owner == r
               && segments[|segments| - 1].status == Outstanding
               && Stack(after.claims, key) == segments[..|segments| - 1]
               && Accrued(state.rows, key) - Accrued(after.rows, key) == CreditOf(state.runners[r]))
  {
    RunKeeps(events);
    var state := Run(events);
    assert RunnerOk(state, r);
    if Lookup(state.rows, KeyOf(state.runners[r])) == Some(NewTotal(state.runners[r])) {
      OwnSegmentIsOnTop(state, r);
    }
  }

  /** No pass is between winning a claim on this total and settling it. */
  predicate Settled(state: State, key: EarningKey)
  {
    forall r :: 0 <= r < |state.runners| ==> !Holds(state.runners[r], key)
  }

  predicate LostRollback(state: State, key: EarningKey)
  {
    exists i :: 0 <= i < |Stack(state.claims, key)| && Stack(state.claims, key)[i].status == Stranded
  }

  /** Once nothing is in flight, ledger and table agree exactly if no rollback lost its race. */
  lemma LedgerMatchesUnlessRollbackLost(events: seq<Event>, key: EarningKey)
    requires Settled(Run(events), key)
    ensures
      var state := Run(events);
      PostedMinor(state, key) == Accrued(state.rows, key) <==> !LostRollback(state, key)
  {
    RunKeeps(events);
    TotalIsPostedPlusOpen(events, key);
    var state := Run(events);
    assert TotalIsStack(state, key);
    var segments := Stack(state.claims, key);
    forall i | 0 <= i < |segments| ensures segments[i].status != Outstanding {
      assert Justified(state.runners, key, segments[i]);
    }
    if LostRollback(state, key) {
      var i :| 0 <= i < |segments| && segments[i].status == Stranded;
      SumCovers(segments, i, WidthIf(false));
    } else {
      SumZero(segments, WidthIf(false));
    }
  }
}
