/**
  Payment events from the gateway, delivered any number of times, in any order and at once
  (src/modules/payments/controllers/stripe-webhook.controller.ts:39-47, funding.service.ts:173-196,
  top-up.service.ts:89-110). A step is one database statement or one ledger posting of one delivery, and a
  posting may throw, which ends its delivery.

  `lost` is a history variable: the rows whose one posting threw.
 */
module WebhookDelivery {
  import opened Outcomes
  import opened Sums

  datatype Table = Fundings | TopUps

  /** The unique index of each table. */
  datatype RowKey = RowKey(table: Table, reference: nat)

  datatype Status = Pending | Succeeded | Failed

  datatype Row = Row(amount: nat, status: Status)

  /** Where a delivery stands: about to update a table, about to post its row, or through. */
  datatype Stage = Updating(table: Table) | Posting(table: Table) | Through

  datatype Delivery = Delivery(reference: nat, succeeded: bool, stage: Stage)

  datatype State = State(rows: map<RowKey, Row>, deliveries: seq<Delivery>, posted: seq<RowKey>, lost: set<RowKey>)

  datatype Event = Create(key: RowKey, amount: nat) | Deliver(reference: nat, succeeded: bool)
                 | Advance(d: nat, throws: bool)

  /** The second handler runs after the first, whatever the first found. */
  function AfterTable(table: Table): Stage
  {
    match table
    case Fundings => Updating(TopUps)
    case TopUps => Through
  }

  function KeyOf(delivery: Delivery): RowKey
    requires delivery.stage != Through
  {
    RowKey(delivery.stage.table, delivery.reference)
  }

  function WithStage(state: State, d: nat, stage: Stage): State
    requires d < |state.deliveries|
  {
    state.(deliveries := state.deliveries[d := state.deliveries[d].(stage := stage)])
  }

  /** The update matches a pending row only; a failure posts nothing. */
  function UpdateStep(state: State, d: nat): State
    requires d < |state.deliveries| && state.deliveries[d].stage.Updating?
  {
    var delivery := state.deliveries[d];
    var key := KeyOf(delivery);
    if key !in state.rows || state.rows[key].status != Pending then WithStage(state, d, AfterTable(key.table))
    else if delivery.succeeded then
      WithStage(state.(rows := state.rows[key := state.rows[key].(status := Succeeded)]), d, Posting(key.table))
    else
      WithStage(state.(rows := state.rows[key := state.rows[key].(status := Failed)]), d, AfterTable(key.table))
  }

  function PostStep(state: State, d: nat, throws: bool): State
    requires d < |state.deliveries| && state.deliveries[d].stage.Posting?
  {
    var key := KeyOf(state.deliveries[d]);
    if throws then WithStage(state.(lost := state.lost + {key}), d, Through)
    else WithStage(state.(posted := state.posted + [key]), d, AfterTable(key.table))
  }

  function Step(state: State, event: Event): State
  {
    match event
    case Create(key, amount) =>
      if key in state.rows then state else state.(rows := state.rows[key := Row(amount, Pending)])
    case Deliver(reference, succeeded) =>
      state.(deliveries := state.deliveries + [Delivery(reference, succeeded, Updating(Fundings))])
    case Advance(d, throws) =>
      if |state.deliveries| <= d then state
      else
        match state.deliveries[d].stage
        case Updating(_) => UpdateStep(state, d)
        case Posting(_) => PostStep(state, d, throws)
        case Through => state
  }

  const Empty := State(map[], [], [], {})

  function Run(events: seq<Event>): State
  {
    if events == [] then Empty else Step(Run(events[..|events| - 1]), events[|events| - 1])
  }

  // One equation per row: a succeeded row has one posting made, under way or lost; any other has none.

  function IsPosting(key: RowKey): Delivery -> int
  {
    (delivery: Delivery) => if delivery.stage.Posting? && KeyOf(delivery) == key then 1 else 0
  }

  function Is(key: RowKey): RowKey -> int
  {
    (other: RowKey) => if other == key then 1 else 0
  }

  function PostingsMade(state: State, key: RowKey): int
  {
    Sum(state.posted, Is(key))
  }

  function PostingsUnderWay(state: State, key: RowKey): int
  {
    Sum(state.deliveries, IsPosting(key))
  }

  function PostingsLost(state: State, key: RowKey): int
  {
    if key in state.lost then 1 else 0
  }

  predicate HasSucceeded(state: State, key: RowKey)
  {
    key in state.rows && state.rows[key].status == Succeeded
  }

  ghost predicate Accounted(state: State)
  {
    forall key: RowKey ::
      PostingsMade(state, key) + PostingsUnderWay(state, key) + PostingsLost(state, key)
      == if HasSucceeded(state, key) then 1 else 0
  }

  lemma StageChange(state: State, d: nat, stage: Stage, key: RowKey)
    requires d < |state.deliveries|
    ensures PostingsUnderWay(WithStage(state, d, stage), key) ==
            PostingsUnderWay(state, key)
            - IsPosting(key)(state.deliveries[d]) + IsPosting(key)(state.deliveries[d].(stage := stage))
  {
    SumUpdate(state.deliveries, d, state.deliveries[d].(stage := stage), IsPosting(key));
  }

  lemma CountsAreNotNegative(state: State, key: RowKey)
    ensures 0 <= PostingsMade(state, key) && 0 <= PostingsUnderWay(state, key) && 0 <= PostingsLost(state, key)
  {
    SumNonNegative(state.posted, Is(key));
    SumNonNegative(state.deliveries, IsPosting(key));
  }

  lemma UpdateKeeps(state: State, d: nat)
    requires Accounted(state) && d < |state.deliveries| && state.deliveries[d].stage.Updating?
    ensures Accounted(UpdateStep(state, d))
  {
    var after := UpdateStep(state, d);
    forall key: RowKey
      ensures PostingsMade(after, key) + PostingsUnderWay(after, key) + PostingsLost(after, key)
              == if HasSucceeded(after, key) then 1 else 0
    {
      StageChange(state, d, after.deliveries[d].stage, key);
    }
  }

  lemma PostKeeps(state: State, d: nat, throws: bool)
    requires Accounted(state) && d < |state.deliveries| && state.deliveries[d].stage.Posting?
    ensures Accounted(PostStep(state, d, throws))
  {
    var after := PostStep(state, d, throws);
    var own := KeyOf(state.deliveries[d]);
    forall key: RowKey
      ensures PostingsMade(after, key) + PostingsUnderWay(after, key) + PostingsLost(after, key)
              == if HasSucceeded(after, key) then 1 else 0
    {
      StageChange(state, d, after.deliveries[d].stage, key);
      SumAppend(state.posted, own, Is(key));
      CountsAreNotNegative(state, key);
      SumCovers(state.deliveries, d, IsPosting(key));
    }
  }

  lemma StepKeeps(state: State, event: Event)
    requires Accounted(state)
    ensures Accounted(Step(state, event))
  {
    match event
    case Create(key, amount) =>
    case Deliver(reference, succeeded) =>
      forall key: RowKey
        ensures PostingsUnderWay(Step(state, event), key) == PostingsUnderWay(state, key)
      {
        SumAppend(state.deliveries, Delivery(reference, succeeded, Updating(Fundings)), IsPosting(key));
      }
    case Advance(d, throws) =>
      if d < |state.deliveries| {
        match state.deliveries[d].stage
        case Updating(_) => UpdateKeeps(state, d);
        case Posting(_) => PostKeeps(state, d, throws);
        case Through =>
      }
  }

  lemma {:induction false} RunKeeps(events: seq<Event>)
    ensures Accounted(Run(events))
  {
    if events != [] {
      RunKeeps(events[..|events| - 1]);
      StepKeeps(Run(events[..|events| - 1]), events[|events| - 1]);
    }
  }

  // What follows for any stream of events.

  /** Credited at most once, and only while, and because, the row has succeeded. */
  lemma CreditedAtMostOnce(events: seq<Event>, key: RowKey)
    ensures PostingsMade(Run(events), key) <= 1
    ensures PostingsMade(Run(events), key) == 1 ==> HasSucceeded(Run(events), key)
  {
    RunKeeps(events);
    CountsAreNotNegative(Run(events), key);
  }

  /** No delivery is between marking a row succeeded and posting it. */
  predicate Quiet(state: State)
  {
    forall d :: 0 <= d < |state.deliveries| ==> !state.deliveries[d].stage.Posting?
  }

  /** With nothing under way, exactly the succeeded rows whose posting did not throw have been credited. */
  lemma CreditedUnlessLost(events: seq<Event>, key: RowKey)
    requires Quiet(Run(events))
    ensures PostingsMade(Run(events), key)
            == if HasSucceeded(Run(events), key) && key !in Run(events).lost then 1 else 0
  {
    RunKeeps(events);
    SumZero(Run(events).deliveries, IsPosting(key));
    CountsAreNotNegative(Run(events), key);
  }

  lemma RunNext(events: seq<Event>, event: Event)
    ensures Run(events + [event]) == Step(Run(events), event)
  {
    assert (events + [event])[..|events|] == events;
  }

  /** A funding is paid, its row marked, and its posting throws: succeeded, and not credited. */
  lemma PostingCanBeLost(reference: nat, amount: nat) returns (events: seq<Event>)
    ensures
      var state, key := Run(events), RowKey(Fundings, reference);
      Quiet(state) && HasSucceeded(state, key) && key in state.lost && PostingsMade(state, key) == 0
  {
    var key := RowKey(Fundings, reference);
    var created, paid, marked := [Create(key, amount)], Deliver(reference, true), Advance(0, false);
    RunNext([], Create(key, amount));
    assert [] + [Create(key, amount)] == created;
    assert Run(created).rows == map[key := Row(amount, Pending)];
    RunNext(created, paid);
    RunNext(created + [paid], marked);
    assert Run(created + [paid] + [marked]).deliveries == [Delivery(reference, true, Posting(Fundings))];
    events := created + [paid] + [marked] + [Advance(0, true)];
    RunNext(created + [paid] + [marked], Advance(0, true));
    CreditedUnlessLost(events, key);
  }

  function RunFrom(state: State, events: seq<Event>): State
    decreases events
  {
    if events == [] then state else RunFrom(Step(state, events[0]), events[1..])
  }

  /** A decided row is decided for good, and a lost posting is lost for good: no redelivery makes up for it. */
  lemma {:induction false} DecidedForGood(state: State, events: seq<Event>, key: RowKey)
    requires key in state.rows
    ensures
      var after := RunFrom(state, events);
      && key in after.rows && after.rows[key].amount == state.rows[key].amount
      && (state.rows[key].status != Pending ==> after.rows[key].status == state.rows[key].status)
      && state.lost <= after.lost
    decreases events
  {
    if events != [] {
      DecidedForGood(Step(state, events[0]), events[1..], key);
    }
  }

  lemma {:induction false} RunFromKeeps(state: State, events: seq<Event>)
    requires Accounted(state)
    ensures Accounted(RunFrom(state, events))
    decreases events
  {
    if events != [] {
      StepKeeps(state, events[0]);
      RunFromKeeps(Step(state, events[0]), events[1..]);
    }
  }

  lemma LostStaysUncredited(events: seq<Event>, later: seq<Event>, key: RowKey)
    requires key in Run(events).lost && key in Run(events).rows
    ensures PostingsMade(RunFrom(Run(events), later), key) == 0
  {
    RunKeeps(events);
    RunFromKeeps(Run(events), later);
    DecidedForGood(Run(events), later, key);
    CountsAreNotNegative(RunFrom(Run(events), later), key);
  }

  /** What an event decides about a row, if it is an update that finds the row at all. */
  function Verdict(state: State, event: Event, key: RowKey): Option<bool>
  {
    if event.Advance? && event.d < |state.deliveries| && state.deliveries[event.d].stage.Updating?
       && KeyOf(state.deliveries[event.d]) == key && key in state.rows
    then Some(state.deliveries[event.d].succeeded) else None
  }

  function FirstVerdict(events: seq<Event>, key: RowKey): Option<bool>
  {
    if events == [] then None
    else
      var n := |events| - 1;
      var before := FirstVerdict(events[..n], key);
      if before.Some? then before else Verdict(Run(events[..n]), events[n], key)
  }

  /** The first update that finds the row fixes its status, however later events contradict it. */
  lemma {:induction false} FirstVerdictDecides(events: seq<Event>, key: RowKey)
    ensures key in Run(events).rows ==>
              Run(events).rows[key].status ==
              match FirstVerdict(events, key)
              case None => Pending
              case Some(succeeded) => if succeeded then Succeeded else Failed
    ensures key !in Run(events).rows ==> FirstVerdict(events, key).None?
  {
    if events != [] {
      FirstVerdictDecides(events[..|events| - 1], key);
    }
  }

  /** Both handlers see every event, but a table without the reference is never credited for it. */
  lemma OnlyTheOwnerIsCredited(events: seq<Event>, owner: Table, other: Table, reference: nat)
    requires owner != other && RowKey(other, reference) !in Run(events).rows
    ensures PostingsMade(Run(events), RowKey(other, reference)) == 0
    ensures RowKey(other, reference) !in Run(events).posted
    ensures PostingsMade(Run(events), RowKey(owner, reference)) <= 1
  {
    RunKeeps(events);
    CountsAreNotNegative(Run(events), RowKey(owner, reference));
    CountsAreNotNegative(Run(events), RowKey(other, reference));
    CountedIsThere(Run(events).posted, RowKey(other, reference));
  }

  // Credited money, in minor units.

  function AmountAt(rows: map<RowKey, Row>, table: Table): RowKey -> int
  {
    (key: RowKey) => if key in rows && key.table == table then rows[key].amount else 0
  }

  function CreditedAmount(state: State, table: Table): RowKey -> int
  {
    (key: RowKey) =>
      if key.table == table && HasSucceeded(state, key) && key !in state.lost then state.rows[key].amount else 0
  }

  lemma {:induction false} SumOfDistinct(posted: seq<RowKey>, weight: RowKey -> int)
    requires forall key: RowKey :: Sum(posted, Is(key)) <= 1
    ensures Sum(posted, weight) == SetSum(Members(posted), weight)
  {
    if posted != [] {
      var n := |posted| - 1;
      var last := posted[n];
      forall key: RowKey ensures Sum(posted[..n], Is(key)) <= 1 {
        assert Sum(posted, Is(key)) <= 1;
      }
      SumOfDistinct(posted[..n], weight);
      assert Sum(posted, Is(last)) <= 1;
      CountedIsThere(posted[..n], last);
      SetSumAdd(Members(posted[..n]), last, weight);
      assert posted == posted[..n] + [last];
      assert Members(posted) == Members(posted[..n]) + {last};
    }
  }

  /** With nothing under way, a table's credited amounts are its succeeded amounts less the lost ones. */
  lemma CreditedMoneyMatches(events: seq<Event>, table: Table)
    requires Quiet(Run(events))
    ensures
      var state := Run(events);
      Sum(state.posted, AmountAt(state.rows, table)) == SetSum(state.rows.Keys, CreditedAmount(state, table))
  {
    var state := Run(events);
    var credited := Members(state.posted);
    forall key: RowKey
      ensures Sum(state.posted, Is(key)) == if HasSucceeded(state, key) && key !in state.lost then 1 else 0
    {
      CreditedUnlessLost(events, key);
    }
    SumOfDistinct(state.posted, AmountAt(state.rows, table));
    forall key: RowKey ensures key in credited <==> HasSucceeded(state, key) && key !in state.lost {
      CountedIsThere(state.posted, key);
    }
    SetSumSame(credited, AmountAt(state.rows, table), CreditedAmount(state, table));
    SetSumOfPart(state.rows.Keys, credited, CreditedAmount(state, table));
  }

  lemma {:induction false} CountedIsThere(posted: seq<RowKey>, key: RowKey)
    ensures key in posted <==> Sum(posted, Is(key)) != 0
    ensures 0 <= Sum(posted, Is(key))
  {
    if posted != [] {
      CountedIsThere(posted[..|posted| - 1], key);
      assert posted == posted[..|posted| - 1] + [posted[|posted| - 1]];
    }
  }

  // A delivery gets to both tables, unless a posting of its own throws.

  /** The delivery has been at this table: its update has run. */
  predicate HasBeenAt(delivery: Delivery, table: Table)
  {
    match delivery.stage
    case Updating(next) => table == Fundings && next == TopUps
    case Posting(at) => table == Fundings || at == TopUps
    case Through => true
  }

  /** A posting of this delivery throws on the way. */
  predicate Throws(state: State, events: seq<Event>, d: nat)
    decreases events
  {
    && events != []
    && ((events[0] == Advance(d, true) && d < |state.deliveries| && state.deliveries[d].stage.Posting?)
        || Throws(Step(state, events[0]), events[1..], d))
  }

  predicate Decided(state: State, key: RowKey)
  {
    key in state.rows && state.rows[key].status != Pending
  }

  lemma {:induction false} BeenAtIsDecided(state: State, events: seq<Event>, d: nat, table: Table)
    requires d < |state.deliveries| && RowKey(table, state.deliveries[d].reference) in state.rows
    requires HasBeenAt(state.deliveries[d], table) ==> Decided(state, RowKey(table, state.deliveries[d].reference))
    requires !Throws(state, events, d)
    ensures
      var after := RunFrom(state, events);
      && d < |after.deliveries| && after.deliveries[d].reference == state.deliveries[d].reference
      && (HasBeenAt(after.deliveries[d], table) ==> Decided(after, RowKey(table, state.deliveries[d].reference)))
    decreases events
  {
    if events != [] {
      BeenAtIsDecided(Step(state, events[0]), events[1..], d, table);
    }
  }

  /**
    Whatever happens at the same time, a delivery that is through without having thrown has found every row with
    its reference, in either table, and left it decided.
   */
  lemma ThroughLeavesNonePending(
    events: seq<Event>, reference: nat, succeeded: bool, later: seq<Event>, table: Table, after: State)
    requires RowKey(table, reference) in Run(events).rows
    requires after == RunFrom(Step(Run(events), Deliver(reference, succeeded)), later)
    requires !Throws(Step(Run(events), Deliver(reference, succeeded)), later, |Run(events).deliveries|)
    ensures |Run(events).deliveries| < |after.deliveries|
    ensures after.deliveries[|Run(events).deliveries|].stage == Through ==> Decided(after, RowKey(table, reference))
  {
    BeenAtIsDecided(Step(Run(events), Deliver(reference, succeeded)), later, |Run(events).deliveries|, table);
  }

  /** How many statements a delivery has ahead of it at most. */
  function Ahead(delivery: Delivery): nat
  {
    match delivery.stage
    case Updating(Fundings) => 4
    case Posting(Fundings) => 3
    case Updating(TopUps) => 2
    case Posting(TopUps) => 1
    case Through => 0
  }

  function StepsOf(events: seq<Event>, d: nat): nat
  {
    if events == [] then 0 else StepsOf(events[1..], d) + if events[0].Advance? && events[0].d == d then 1 else 0
  }

  /** After four statements of its own a delivery is through, whatever others do in between. */
  lemma {:induction false} FourStepsAreEnough(state: State, events: seq<Event>, d: nat)
    requires d < |state.deliveries|
    ensures
      var after := RunFrom(state, events);
      && d < |after.deliveries|
      && (Ahead(state.deliveries[d]) <= StepsOf(events, d) ==> after.deliveries[d].stage == Through)
      && (4 <= StepsOf(events, d) ==> after.deliveries[d].stage == Through)
    decreases events
  {
    if events != [] {
      var next := Step(state, events[0]);
      FourStepsAreEnough(next, events[1..], d);
      assert events[0].Advance? && events[0].d == d ==>
          Ahead(next.deliveries[d]) <= (if Ahead(state.deliveries[d]) == 0 then 0 else Ahead(state.deliveries[d]) - 1);
    }
  }
}
