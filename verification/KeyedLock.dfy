/**
  Runs work one at a time per key (src/modules/payments/application/keyed-lock.ts).

  A call of `run` is a task, and its promise `tail` goes by its number. The synchronous stretches of `run`
  are the steps: arriving (chain behind the current tail and become the tail), starting (the promise it
  waits on has settled), finishing (its work settles, well or badly) and the `finally` block. Steps of
  different tasks interleave in any order the promises allow.
 */
module KeyedLocks {
  import opened Outcomes
  import opened Sums

  datatype Phase = Waiting | Running | Finished(ok: bool) | Gone(ok: bool)

  datatype Task = Task(key: nat, previous: Option<nat>, phase: Phase)

  datatype Lock = Lock(tails: map<nat, nat>, tasks: seq<Task>)

  datatype Event = Arrive(key: nat) | Start(task: nat) | Finish(task: nat, ok: bool) | CleanUp(task: nat)

  /** Its promise has settled. */
  predicate Done(task: Task)
  {
    task.phase.Finished? || task.phase.Gone?
  }

  predicate Enabled(lock: Lock, event: Event)
  {
    match event
    case Arrive(_) => true
    case Start(t) =>
      && t < |lock.tasks|
      && lock.tasks[t].phase == Waiting
      && (lock.tasks[t].previous.Some? ==>
            lock.tasks[t].previous.value < |lock.tasks| && Done(lock.tasks[lock.tasks[t].previous.value]))
    case Finish(t, _) => t < |lock.tasks| && lock.tasks[t].phase == Running
    case CleanUp(t) => t < |lock.tasks| && lock.tasks[t].phase.Finished?
  }

  function Current(lock: Lock, key: nat): Option<nat>
  {
    if key in lock.tails then Some(lock.tails[key]) else None
  }

  function SetPhase(lock: Lock, t: nat, phase: Phase): Lock
    requires t < |lock.tasks|
  {
    lock.(tasks := lock.tasks[t := lock.tasks[t].(phase := phase)])
  }

  function Step(lock: Lock, event: Event): Lock
    requires Enabled(lock, event)
  {
    match event
    case Arrive(key) =>
      Lock(lock.tails[key := |lock.tasks|], lock.tasks + [Task(key, Current(lock, key), Waiting)])
    case Start(t) => SetPhase(lock, t, Running)
    case Finish(t, ok) => SetPhase(lock, t, Finished(ok))
    case CleanUp(t) =>
      var task := lock.tasks[t];
      var gone := SetPhase(lock, t, Gone(task.phase.ok));
      if Current(lock, task.key) == Some(t) then gone.(tails := lock.tails - {task.key}) else gone
  }

  const Idle := Lock(map[], [])

  /** The lock after a schedule; an event the promises do not allow yet changes nothing. */
  function Run(events: seq<Event>): Lock
  {
    if events == [] then Idle
    else
      var before := Run(events[..|events| - 1]);
      var last := events[|events| - 1];
      if Enabled(before, last) then Step(before, last) else before
  }

  // The invariant.

  predicate EarlierDone(lock: Lock, t: nat)
    requires t < |lock.tasks|
  {
    forall u :: 0 <= u < t && lock.tasks[u].key == lock.tasks[t].key ==> Done(lock.tasks[u])
  }

  predicate TaskOk(lock: Lock, t: nat)
    requires t < |lock.tasks|
  {
    var task := lock.tasks[t];
    && (task.previous.Some? ==>
          && task.previous.value < t
          && lock.tasks[task.previous.value].key == task.key
          && forall u :: task.previous.value < u < t ==> lock.tasks[u].key != task.key)
    && (task.previous.None? ==> EarlierDone(lock, t))
    && (task.phase != Waiting ==> EarlierDone(lock, t))
  }

  predicate TailOk(lock: Lock, key: nat)
  {
    if key in lock.tails then
      && lock.tails[key] < |lock.tasks|
      && lock.tasks[lock.tails[key]].key == key
      && !lock.tasks[lock.tails[key]].phase.Gone?
      && forall u :: lock.tails[key] < u < |lock.tasks| ==> lock.tasks[u].key != key
    else
      forall u :: 0 <= u < |lock.tasks| && lock.tasks[u].key == key ==> Done(lock.tasks[u])
  }

  ghost predicate Inv(lock: Lock)
  {
    && (forall t :: 0 <= t < |lock.tasks| ==> TaskOk(lock, t))
    && (forall key: nat :: TailOk(lock, key))
  }

  lemma ArriveKeeps(lock: Lock, key: nat)
    requires Inv(lock)
    ensures Inv(Step(lock, Arrive(key)))
  {
    var after := Step(lock, Arrive(key));
    forall t | 0 <= t < |after.tasks| ensures TaskOk(after, t) {
      if t < |lock.tasks| {
        assert TaskOk(lock, t);
      } else {
        assert TailOk(lock, key);
      }
    }
    forall other: nat ensures TailOk(after, other) {
      assert TailOk(lock, other);
    }
  }

  /** A phase only moves forward, so what is done stays done. */
  lemma PhaseKeepsTask(lock: Lock, t: nat, phase: Phase, u: nat)
    requires Inv(lock) && t < |lock.tasks| && u < |lock.tasks|
    requires Done(lock.tasks[t]) ==> phase.Gone?
    requires phase != Waiting ==> EarlierDone(lock, t)
    ensures TaskOk(SetPhase(lock, t, phase), u)
  {
    assert TaskOk(lock, u) && TaskOk(lock, t);
  }

  lemma StartKeeps(lock: Lock, t: nat)
    requires Inv(lock) && Enabled(lock, Start(t))
    ensures EarlierDone(lock, t) && Inv(Step(lock, Start(t)))
  {
    var previous := lock.tasks[t].previous;
    assert TaskOk(lock, t);
    if previous.Some? {
      assert TaskOk(lock, previous.value);
      forall u | 0 <= u < t && lock.tasks[u].key == lock.tasks[t].key ensures Done(lock.tasks[u]) {
        assert u <= previous.value;
      }
    }
    var after := Step(lock, Start(t));
    forall u | 0 <= u < |after.tasks| ensures TaskOk(after, u) {
      PhaseKeepsTask(lock, t, Running, u);
    }
    forall key: nat ensures TailOk(after, key) {
      assert TailOk(lock, key);
    }
  }

  lemma FinishKeeps(lock: Lock, t: nat, ok: bool)
    requires Inv(lock) && Enabled(lock, Finish(t, ok))
    ensures Inv(Step(lock, Finish(t, ok)))
  {
    assert TaskOk(lock, t);
    var after := Step(lock, Finish(t, ok));
    forall u | 0 <= u < |after.tasks| ensures TaskOk(after, u) {
      PhaseKeepsTask(lock, t, Finished(ok), u);
    }
    forall key: nat ensures TailOk(after, key) {
      assert TailOk(lock, key);
    }
  }

  lemma CleanUpKeeps(lock: Lock, t: nat)
    requires Inv(lock) && Enabled(lock, CleanUp(t))
    ensures Inv(Step(lock, CleanUp(t)))
  {
    assert TaskOk(lock, t);
    var after := Step(lock, CleanUp(t));
    var phase := Gone(lock.tasks[t].phase.ok);
    forall u | 0 <= u < |after.tasks| ensures TaskOk(after, u) {
      PhaseKeepsTask(lock, t, phase, u);
      assert TaskOk(SetPhase(lock, t, phase), u);
    }
    forall key: nat ensures TailOk(after, key) {
      assert TailOk(lock, key);
      if key == lock.tasks[t].key && Current(lock, key) == Some(t) {
        forall u | 0 <= u < |after.tasks| && after.tasks[u].key == key ensures Done(after.tasks[u]) {
          assert u <= t;
        }
      }
    }
  }

  lemma StepKeeps(lock: Lock, event: Event)
    requires Inv(lock) && Enabled(lock, event)
    ensures Inv(Step(lock, event))
  {
    match event
    case Arrive(key) => ArriveKeeps(lock, key);
    case Start(t) => StartKeeps(lock, t);
    case Finish(t, ok) => FinishKeeps(lock, t, ok);
    case CleanUp(t) => CleanUpKeeps(lock, t);
  }

  lemma {:induction false} RunKeeps(events: seq<Event>)
    ensures Inv(Run(events))
  {
    if events != [] {
      var before := Run(events[..|events| - 1]);
      RunKeeps(events[..|events| - 1]);
      if Enabled(before, events[|events| - 1]) {
        StepKeeps(before, events[|events| - 1]);
      }
    }
  }

  // What holds in every schedule.

  /** At most one task per key runs. */
  lemma MutualExclusion(events: seq<Event>, lock: Lock, t: nat, u: nat)
    requires lock == Run(events) && t < |lock.tasks| && u < |lock.tasks| && t != u
    requires lock.tasks[t].phase == Running && lock.tasks[u].phase == Running
    ensures lock.tasks[t].key != lock.tasks[u].key
  {
    RunKeeps(events);
    assert TaskOk(lock, t) && TaskOk(lock, u);
  }

  /** A task starts only after every earlier task of its key has ended. */
  lemma ArrivalOrder(events: seq<Event>, lock: Lock, early: nat, late: nat)
    requires lock == Run(events) && early < late < |lock.tasks|
    requires lock.tasks[early].key == lock.tasks[late].key && lock.tasks[late].phase != Waiting
    ensures Done(lock.tasks[early])
  {
    RunKeeps(events);
    assert TaskOk(lock, late);
  }

  /** How the earlier tasks ended, a throw included, makes no difference to the next one's turn. */
  lemma FailureNeverBlocks(events: seq<Event>, lock: Lock, t: nat)
    requires lock == Run(events) && t < |lock.tasks| && lock.tasks[t].phase == Waiting
    ensures Enabled(lock, Start(t)) <==> EarlierDone(lock, t)
  {
    RunKeeps(events);
    assert TaskOk(lock, t);
    if Enabled(lock, Start(t)) {
      StartKeeps(lock, t);
    }
  }

  /** The entry of a key goes only when nothing of that key runs or waits, and comes back only by an arrival. */
  lemma EntryGoesOnlyWhenIdle(events: seq<Event>, lock: Lock, event: Event, key: nat)
    requires lock == Run(events) && Enabled(lock, event)
    ensures
      var after := Step(lock, event);
      && (key in lock.tails && key !in after.tails ==>
            forall u :: 0 <= u < |after.tasks| && after.tasks[u].key == key ==> Done(after.tasks[u]))
      && (key !in lock.tails && key in after.tails ==> event == Arrive(key))
  {
    RunKeeps(events);
    StepKeeps(lock, event);
    assert TailOk(Step(lock, event), key);
  }

  /** Hence an arrival that finds no entry overlaps no task of its key. */
  lemma FreshArrivalIsAlone(events: seq<Event>, lock: Lock, key: nat, u: nat)
    requires lock == Run(events) && key !in lock.tails
    requires u < |lock.tasks| && lock.tasks[u].key == key
    ensures Done(lock.tasks[u])
  {
    RunKeeps(events);
    assert TailOk(lock, key);
  }

  /** Every call for this key has returned, whatever other keys are doing. */
  predicate AllGone(lock: Lock, key: nat)
  {
    forall t :: 0 <= t < |lock.tasks| && lock.tasks[t].key == key ==> lock.tasks[t].phase.Gone?
  }

  /** The queued call a step belongs to. */
  predicate IsStepOf(lock: Lock, event: Event, key: nat)
  {
    match event
    case Arrive(_) => false
    case Start(t) => t < |lock.tasks| && lock.tasks[t].key == key
    case Finish(t, _) => t < |lock.tasks| && lock.tasks[t].key == key
    case CleanUp(t) => t < |lock.tasks| && lock.tasks[t].key == key
  }

  /** No deadlock, key by key: until a key's tasks are all gone, one of them can take a step. */
  lemma SomeTaskCanStep(events: seq<Event>, lock: Lock, key: nat)
    requires lock == Run(events) && !AllGone(lock, key)
    ensures exists event: Event :: IsStepOf(lock, event, key) && Enabled(lock, event)
  {
    RunKeeps(events);
    var t :| 0 <= t < |lock.tasks| && lock.tasks[t].key == key && !lock.tasks[t].phase.Gone?;
    var first := FirstLeft(lock, key, t);
    assert TaskOk(lock, first);
    match lock.tasks[first].phase
    case Waiting => assert IsStepOf(lock, Start(first), key) && Enabled(lock, Start(first));
    case Running => assert IsStepOf(lock, Finish(first, true), key) && Enabled(lock, Finish(first, true));
    case Finished(_) => assert IsStepOf(lock, CleanUp(first), key) && Enabled(lock, CleanUp(first));
  }

  ghost function FirstLeft(lock: Lock, key: nat, t: nat): (first: nat)
    requires t < |lock.tasks| && lock.tasks[t].key == key && !lock.tasks[t].phase.Gone?
    ensures first < |lock.tasks| && lock.tasks[first].key == key && !lock.tasks[first].phase.Gone?
    ensures forall u :: 0 <= u < first && lock.tasks[u].key == key ==> lock.tasks[u].phase.Gone?
  {
    if forall u :: 0 <= u < t && lock.tasks[u].key == key ==> lock.tasks[u].phase.Gone? then t
    else
      var u :| 0 <= u < t && lock.tasks[u].key == key && !lock.tasks[u].phase.Gone?;
      FirstLeft(lock, key, u)
  }

  /** The map holds no entry for a key once its own tasks are gone, however busy other keys are. */
  lemma NoEntryOnceAllGone(events: seq<Event>, lock: Lock, key: nat)
    requires lock == Run(events) && AllGone(lock, key)
    ensures key !in lock.tails
  {
    RunKeeps(events);
    assert TailOk(lock, key);
  }

  /** So the map is empty once every call has returned. */
  lemma EmptyOnceAllGone(events: seq<Event>, lock: Lock)
    requires lock == Run(events) && forall key: nat :: AllGone(lock, key)
    ensures lock.tails == map[]
  {
    forall key: nat ensures key !in lock.tails {
      NoEntryOnceAllGone(events, lock, key);
    }
  }

  function StepsLeft(): Task -> int
  {
    (task: Task) =>
      match task.phase
      case Waiting => 3
      case Running => 2
      case Finished(_) => 1
      case Gone(_) => 0
  }

  /** Every step but an arrival brings the schedule one step nearer its end. */
  lemma ScheduleEnds(lock: Lock, event: Event)
    requires Enabled(lock, event)
    ensures Sum(Step(lock, event).tasks, StepsLeft())
            == Sum(lock.tasks, StepsLeft()) + if event.Arrive? then 3 else -1
    ensures 0 <= Sum(lock.tasks, StepsLeft())
  {
    SumNonNegative(lock.tasks, StepsLeft());
    match event
    case Arrive(key) => SumAppend(lock.tasks, Task(key, Current(lock, key), Waiting), StepsLeft());
    case Start(t) => SumUpdate(lock.tasks, t, lock.tasks[t].(phase := Running), StepsLeft());
    case Finish(t, ok) => SumUpdate(lock.tasks, t, lock.tasks[t].(phase := Finished(ok)), StepsLeft());
    case CleanUp(t) => SumUpdate(lock.tasks, t, lock.tasks[t].(phase := Gone(lock.tasks[t].phase.ok)), StepsLeft());
  }

  /** The lock object: the map it keeps, and the calls whose promises refer to each other. */
  class KeyedLock {
    var tails: map<nat, nat>
    var tasks: seq<Task>

    ghost function State(): Lock
      reads this
    {
      Lock(tails, tasks)
    }

    constructor ()
      ensures State() == Idle
    {
      tails, tasks := map[], [];
    }

    /** `run` up to its first `await`. */
    method Begin(key: nat) returns (task: nat)
      modifies this
      ensures State() == Step(old(State()), Arrive(key))
      ensures task == |old(tasks)| && tails[key] == task
    {
      var previous := if key in tails then Some(tails[key]) else None;
      task := |tasks|;
      tasks := tasks + [Task(key, previous, Waiting)];
      tails := tails[key := task];
    }

    /** The work begins once the promise before it has settled. */
    method TryStart(task: nat) returns (started: bool)
      requires task < |tasks|
      modifies `tasks
      ensures started == Enabled(old(State()), Start(task))
      ensures State() == if started then Step(old(State()), Start(task)) else old(State())
    {
      var previous := tasks[task].previous;
      started := tasks[task].phase == Waiting
                 && (previous.None? || (previous.value < |tasks| && Done(tasks[previous.value])));
      if started {
        tasks := tasks[task := tasks[task].(phase := Running)];
      }
    }

    method Settle(task: nat, ok: bool)
      requires Enabled(State(), Finish(task, ok))
      modifies `tasks
      ensures State() == Step(old(State()), Finish(task, ok))
    {
      tasks := tasks[task := tasks[task].(phase := Finished(ok))];
    }

    /** The `finally` block. */
    method End(task: nat)
      requires Enabled(State(), CleanUp(task))
      modifies this
      ensures State() == Step(old(State()), CleanUp(task))
    {
      var key := tasks[task].key;
      tasks := tasks[task := tasks[task].(phase := Gone(tasks[task].phase.ok))];
      if key in tails && tails[key] == task {
        tails := tails - {key};
      }
    }
  }
}
