/** Progress: once requests stop arriving every run comes to rest, and what is
    left then (src/inflight.rs:55-96, src/handler.rs:154-192). */
module Drain {
  import opened Prelude
  import opened Uploads
  import opened Service
  import opened Flights
  import opened SingleFlight
  import opened Tallies
  import opened Ledger

  // ----- Every step of a task uses up some of what is left to do -----

  function PhaseWeight(p: Phase): nat {
    match p
    case Lookup => 20
    case Heading => 17
    case Acquiring => 15
    case Registering(_) => 13
    case Waiting(_, _) => 12
    case Fetching(_) => 10
    case Getting(_) => 9
    case Reading(_, _) => 8
    case Inserting(_, _) => 7
    case Completing(_, _) => 6
    case Releasing(_, _) => 5
    case Relooking(_, _) => 2
    case PutStarting(stream) => 10 + |stream|
    case PutOpening(stream) => 9 + |stream|
    case Streaming(stream, _) => 8 + |stream|
    case Aborting => 2
    case Finishing(_, applied) => if applied then 3 else 4
    case Storing(_) => 2
  }

  function Weight(x: Task): nat {
    match x.status
    case Running(p) => PhaseWeight(p)
    case Dropping(_) => 1
    case _ => 0
  }

  function Weights(): Task -> nat {
    (x: Task) => Weight(x)
  }

  /** The phases left to run, the releases still owed by dropped guards and the
      chunks still unread, over all tasks. */
  ghost function Measure(s: State): nat {
    Sum(s.tasks, Weights())
  }

  predicate UsesUp(v: View, e: Effect) {
    Weight(v.task.(status := e.status)) + (if e.spawn.Some? then Weight(Child(v.task.key)) else 0) < Weight(v.task)
  }

  lemma FlightUses(c: Config, t: Tid, v: View, a: Action)
    requires v.task.status.Running?
    requires var p := v.task.status.at; Touches(p) || FetchPhase(p)
    ensures var e := ActRunning(c, t, v, v.task.status.at, a); e.Some? ==> UsesUp(v, e.value)
  {}

  lemma OtherUses(c: Config, t: Tid, v: View, a: Action)
    requires v.task.status.Running?
    requires var p := v.task.status.at; !(Touches(p) || FetchPhase(p))
    ensures var e := ActRunning(c, t, v, v.task.status.at, a); e.Some? ==> UsesUp(v, e.value)
  {}

  lemma ActUses(c: Config, t: Tid, v: View, a: Action)
    ensures var e := Act(c, t, v, a); e.Some? ==> UsesUp(v, e.value)
  {
    hide ActRunning;
    if v.task.status.Running? && !a.Cancel? {
      var p := v.task.status.at;
      if Touches(p) || FetchPhase(p) {
        FlightUses(c, t, v, a);
      } else {
        OtherUses(c, t, v, a);
      }
    }
  }

  /** Task steps, cancellations and pending releases included, lower the measure;
      evictions and external writes leave it. */
  lemma StepDrains(c: Config, s: State, step: Step)
    requires Enabled(c, s, step) && !step.Arrive?
    ensures step.Take? ==> Measure(Do(c, s, step)) < Measure(s)
    ensures !step.Take? ==> Measure(Do(c, s, step)) == Measure(s)
  {
    hide Act, Apply;
    if step.Take? {
      var e := Act(c, step.t, ViewOf(c, s, step.t), step.a).value;
      SpawnFresh(c, s, step.t, step.a);
      ActUses(c, step.t, ViewOf(c, s, step.t), step.a);
      SumAfter(c, s, step.t, e, Weights());
    }
  }

  function TaskSteps(steps: seq<Step>): nat {
    if steps == [] then 0
    else TaskSteps(steps[..|steps| - 1]) + if steps[|steps| - 1].Take? then 1 else 0
  }

  lemma TaskStepsNext(steps: seq<Step>, i: nat, j: nat)
    requires i < j <= |steps|
    ensures TaskSteps(steps[i..j]) == TaskSteps(steps[i..j - 1]) + if steps[j - 1].Take? then 1 else 0
  {
    var part := steps[i..j];
    assert part[..|part| - 1] == steps[i..j - 1] && part[|part| - 1] == steps[j - 1];
  }

  /** However the steps interleave, once no request arrives any more the tasks take
      at most as many further steps as the measure then says. */
  lemma {:induction false} RunsDrain(c: Config, r: Run, i: nat, j: nat)
    requires ValidRun(c, r) && i <= j < |r.states|
    requires forall m :: i <= m < j ==> !r.steps[m].Arrive?
    ensures TaskSteps(r.steps[i..j]) + Measure(r.states[j]) <= Measure(r.states[i])
  {
    hide Enabled, Do, Init, Measure;
    if i < j {
      RunsDrain(c, r, i, j - 1);
      StepDrains(c, r.states[j - 1], r.steps[j - 1]);
      hide ValidRun;
      TaskStepsNext(r.steps, i, j);
    }
  }

  // ----- What is left when no task can move -----

  /** Only the environment can step, or a client that gives up. */
  ghost predicate AtRest(c: Config, s: State) {
    forall t: Tid, a: Action :: Enabled(c, s, Take(t, a)) ==> a.Cancel?
  }

  predicate Over(x: Status) {
    x.Finished? || x.Cancelled?
  }

  /** A follower that registered only after its entry was released. */
  predicate Stranded(s: State, t: Tid)
    requires t in s.tasks
  {
    var x := s.tasks[t].status;
    x.Running? && x.at.Waiting? && !x.at.early && x.at.eid in s.flights && s.flights[x.at.eid].releases == 1
  }

  /** A waiting task whose entry has not been released, or not yet told it. */
  predicate Parked(s: State, t: Tid)
    requires t in s.tasks
  {
    var x := s.tasks[t].status;
    x.Running? && x.at.Waiting? && !Woken(s, t, x.at.eid)
  }

  /** An action that is possible in a phase, whatever the store and cache do. */
  function PossibleAction(c: Config, x: Task, id: Eid): Action {
    match x.status
    case Running(Lookup) => if ValidPath(x.key.path) then Miss else Go
    case Running(Acquiring) => Elect(id)
    case Running(Getting(_)) => Fail(Upstream)
    case Running(Reading(_, _)) => Fail(Upstream)
    case Running(Relooking(_, _)) => Miss
    case Running(Heading) => if x.key.bucket in c.known then Fail(Upstream) else Go
    case Running(PutOpening(_)) => Fail(Upstream)
    case Running(Finishing(_, _)) => Fail(Upstream)
    case _ => Go
  }

  lemma ActionIsPossible(c: Config, t: Tid, v: View, id: Eid)
    requires Typed(v.task) && !Over(v.task.status)
    requires EntryOf(v.task.status).Some? ==> v.flight.Some?
    requires v.task.status.Running? && v.task.status.at.Waiting? ==> v.flight.Some? && t in v.flight.value.notified
    ensures Act(c, t, v, PossibleAction(c, v.task, id)).Some?
  {}

  /** Every unfinished task that is not parked can take a step. */
  lemma CanMove(c: Config, s: State, t: Tid)
    requires FlightInv(s) && LedgerInv(s) && t in s.tasks
    requires !Over(s.tasks[t].status) && !Parked(s, t)
    ensures exists a: Action :: !a.Cancel? && Enabled(c, s, Take(t, a))
  {
    hide FlightInv, Act;
    var id := UnusedId(s.flights);
    var a := PossibleAction(c, s.tasks[t], id);
    assert Typed(s.tasks[t]);
    EntryInFlights(s, t);
    ActionIsPossible(c, t, ViewOf(c, s, t), id);
    assert !a.Cancel? && Enabled(c, s, Take(t, a));
  }

  lemma EntryInFlights(s: State, t: Tid)
    requires FlightInv(s) && t in s.tasks
    ensures EntryOf(s.tasks[t].status).Some? ==> EntryOf(s.tasks[t].status).value in s.flights
  {
    RoleFacts(s, t, RoleOf(s.tasks[t]));
    LinkedOrFree(s.tasks[t]);
  }

  lemma LinkedOrFree(x: Task)
    ensures EntryOf(x.status).Some? ==> !RoleOf(x).Free? && RoleOf(x).eid == EntryOf(x.status).value
  {}

  /** A parked task that is not stranded waits for an entry somebody still owes. */
  lemma ParkedIsOwedOrStranded(s: State, t: Tid) returns (u: Tid)
    requires FlightInv(s) && t in s.tasks && Parked(s, t) && !Stranded(s, t)
    ensures u in s.tasks && Duty(s.tasks[u].status).Some?
  {
    var e := s.tasks[t].status.at.eid;
    RegisteredRole(s, t, e);
    assert FlightOk(s.inner, Roles(s.tasks), e, s.flights[e]);
    u := CurrentIsOwed(s, s.tasks[t].key);
  }

  lemma OwingIsNotParked(s: State, u: Tid)
    requires u in s.tasks && Duty(s.tasks[u].status).Some?
    ensures !Over(s.tasks[u].status) && !Parked(s, u)
  {}

  /** No task can move exactly when every task is over or stranded; then nothing
      is left in the in-flight map. */
  lemma AtRestIsDrained(c: Config, r: Run, i: nat)
    requires ValidRun(c, r) && i < |r.states|
    ensures var s := r.states[i];
      && (AtRest(c, s) <==> forall t :: t in s.tasks ==> Over(s.tasks[t].status) || Stranded(s, t))
      && (AtRest(c, s) ==> s.inner == map[])
  {
    hide ValidRun;
    RunKeeps(c, r, i);
    RunBalances(c, r, i);
    var s := r.states[i];
    if AtRest(c, s) {
      RestIsEmpty(c, s);
      forall t | t in s.tasks ensures Over(s.tasks[t].status) || Stranded(s, t) {
        if !Over(s.tasks[t].status) {
          if !Parked(s, t) { CanMove(c, s, t); }
          if !Stranded(s, t) { var u := ParkedIsOwedOrStranded(s, t); NobodyOwes(c, s, u); }
        }
      }
    }
    if forall t :: t in s.tasks ==> Over(s.tasks[t].status) || Stranded(s, t) {
      forall t: Tid, a: Action | Enabled(c, s, Take(t, a)) ensures a.Cancel? {
        StrandedCannotMove(c, s, t, a);
      }
    }
  }

  lemma NobodyOwes(c: Config, s: State, u: Tid)
    requires FlightInv(s) && LedgerInv(s) && AtRest(c, s) && u in s.tasks
    ensures Duty(s.tasks[u].status).None?
  {
    hide FlightInv, LedgerInv, Enabled;
    if Duty(s.tasks[u].status).Some? {
      OwingIsNotParked(s, u);
      CanMove(c, s, u);
    }
  }

  lemma RestIsEmpty(c: Config, s: State)
    requires FlightInv(s) && LedgerInv(s) && AtRest(c, s)
    ensures s.inner == map[]
  {
    hide FlightInv, LedgerInv, AtRest;
    forall k | k in s.inner ensures false {
      var u := CurrentIsOwed(s, k);
      NobodyOwes(c, s, u);
    }
  }

  lemma StrandedCannotMove(c: Config, s: State, t: Tid, a: Action)
    requires FlightInv(s) && Enabled(c, s, Take(t, a))
    requires Over(s.tasks[t].status) || Stranded(s, t)
    ensures a.Cancel?
  {
    if Stranded(s, t) {
      RegisteredRole(s, t, s.tasks[t].status.at.eid);
    }
  }
}
