/** Keys do not interfere: a run seen from one key is a run of that key alone, and
    steps on different keys and objects commute. */
module Independence {
  import opened Prelude
  import opened Uploads
  import opened Service
  import opened Flights
  import opened SingleFlight
  import opened Provenance

  // ----- What a step may write -----

  lemma WritesStay(c: Config, t: Tid, v: View, a: Action)
    ensures var e := Act(c, t, v, a);
      e.Some? ==>
      && (!a.Commit? ==> e.value.stored == v.stored)
      && (a.Commit? ==> e.value.stored.Some? && e.value.flight.None? && e.value.spawn.None?)
  {}

  /** An entry a step rewrites is a fresh one of its key, or the task's own. */
  lemma TouchedFlight(c: Config, t: Tid, v: View, a: Action)
    ensures var e := Act(c, t, v, a);
      e.Some? && e.value.flight.Some? ==>
      || (a == Elect(e.value.flight.value.0) && e.value.flight.value.1.key == v.task.key)
      || (&& EntryOf(v.task.status) == Some(e.value.flight.value.0) && v.flight.Some?
          && e.value.flight.value.1.key == v.flight.value.key)
  {}

  /** What one step changes, and where. */
  lemma StepFrame(c: Config, s: State, t: Tid, a: Action)
    requires FlightInv(s) && HeldInv(c, s) && Enabled(c, s, Take(t, a))
    ensures var e, k := Act(c, t, ViewOf(c, s, t), a).value, s.tasks[t].key;
      && (e.spawn.Some? ==> a == Spawn(e.spawn.value) && e.spawn.value !in s.tasks)
      && (e.flight.Some? ==>
            && e.flight.value.1.key == k
            && (|| (a == Elect(e.flight.value.0) && e.flight.value.0 !in s.flights)
                || (e.flight.value.0 in s.flights && s.flights[e.flight.value.0].key == k
                    && EntryOf(s.tasks[t].status) == Some(e.flight.value.0))))
      && (!a.Commit? ==> e.stored == SlotOf(s.store, c.loc(k)))
      && (a.Commit? ==> e.stored.Some?)
  {
    hide Act, FlightInv, HeldInv;
    SpawnIsNew(c, t, ViewOf(c, s, t), a);
    TouchedFlight(c, t, ViewOf(c, s, t), a);
    WritesStay(c, t, ViewOf(c, s, t), a);
    EntryKey(s, t);
  }

  // ----- One key's part of a run -----

  ghost predicate PartSlot<V>(k: Key, m: map<Key, V>, p: map<Key, V>) {
    p.Keys <= {k} && SlotOf(p, k) == SlotOf(m, k)
  }

  ghost predicate PartTasks(k: Key, m: map<Tid, Task>, p: map<Tid, Task>) {
    && (forall t :: t in p <==> t in m && m[t].key == k)
    && (forall t :: t in p ==> p[t] == m[t])
  }

  ghost predicate PartFlights(k: Key, m: map<Eid, Flight>, p: map<Eid, Flight>) {
    && (forall e :: e in p <==> e in m && m[e].key == k)
    && (forall e :: e in p ==> p[e] == m[e])
  }

  /** `p` is the part of `s` that belongs to `k`, over the same store. */
  ghost predicate PartOf(k: Key, s: State, p: State) {
    && p.store == s.store && p.held == s.held
    && PartSlot(k, s.cache, p.cache)
    && PartSlot(k, s.inner, p.inner)
    && PartTasks(k, s.tasks, p.tasks)
    && PartFlights(k, s.flights, p.flights)
  }

  /** What a step is to `k`: itself, or nothing, or for an upload to another key a
      write to the store from outside. */
  function Project(c: Config, k: Key, s: State, step: Step): seq<Step>
    requires Enabled(c, s, step)
  {
    match step
    case Arrive(_, _, key, _) => if key == k then [step] else []
    case Take(t, a) =>
      if s.tasks[t].key == k then [step]
      else if a.Commit? then [External(c.loc(s.tasks[t].key), Act(c, t, ViewOf(c, s, t), a).value.stored)]
      else []
    case Evict(key) => if key == k then [step] else []
    case External(_, _) => [step]
  }

  lemma SameView(c: Config, k: Key, s: State, p: State, t: Tid)
    requires FlightInv(s) && PartOf(k, s, p) && t in p.tasks
    ensures ViewOf(c, p, t) == ViewOf(c, s, t)
  {
    hide FlightInv;
    EntryKey(s, t);
  }

  predicate Local(s: State, k: Key, e: Effect) {
    && (e.spawn.Some? ==> e.spawn.value !in s.tasks)
    && (e.flight.Some? ==>
          && e.flight.value.1.key == k
          && (e.flight.value.0 in s.flights ==> s.flights[e.flight.value.0].key == k))
  }

  lemma OwnTasks(k: Key, m: map<Tid, Task>, p: map<Tid, Task>, t: Tid, e: Effect)
    requires PartTasks(k, m, p) && t in m && m[t].key == k
    ensures PartTasks(k, WithChild(m, e.spawn, k)[t := m[t].(status := e.status)],
                         WithChild(p, e.spawn, k)[t := m[t].(status := e.status)])
  {}

  lemma OtherTasks(k: Key, m: map<Tid, Task>, p: map<Tid, Task>, t: Tid, e: Effect)
    requires PartTasks(k, m, p) && t in m && m[t].key != k && (e.spawn.Some? ==> e.spawn.value !in m)
    ensures PartTasks(k, WithChild(m, e.spawn, m[t].key)[t := m[t].(status := e.status)], p)
  {}

  lemma OwnApply(c: Config, k: Key, s: State, p: State, t: Tid, e: Effect)
    requires PartOf(k, s, p) && t in s.tasks && s.tasks[t].key == k && Local(s, k, e)
    ensures t in p.tasks && PartOf(k, Apply(c, s, t, e), Apply(c, p, t, e))
  {
    OwnTasks(k, s.tasks, p.tasks, t, e);
    OwnSlot(k, s.cache, p.cache, e.cached);
    OwnSlot(k, s.inner, p.inner, e.current);
    if e.flight.Some? {
      OwnFlight(k, s.flights, p.flights, e.flight.value.0, e.flight.value.1);
    }
  }

  lemma OwnSlot<V>(k: Key, m: map<Key, V>, p: map<Key, V>, v: Option<V>)
    requires PartSlot(k, m, p)
    ensures PartSlot(k, SetSlot(m, k, v), SetSlot(p, k, v))
  {}

  lemma OwnFlight(k: Key, m: map<Eid, Flight>, p: map<Eid, Flight>, e: Eid, f: Flight)
    requires PartFlights(k, m, p) && f.key == k
    ensures PartFlights(k, m[e := f], p[e := f])
  {}

  lemma OtherSlot<V>(k: Key, j: Key, m: map<Key, V>, p: map<Key, V>, v: Option<V>)
    requires PartSlot(k, m, p) && j != k
    ensures PartSlot(k, SetSlot(m, j, v), p)
  {}

  /** A step of another key is, to `k`, the write it makes to the store. */
  lemma OtherApply(c: Config, k: Key, s: State, p: State, t: Tid, e: Effect)
    requires PartOf(k, s, p) && t in s.tasks && s.tasks[t].key != k && Local(s, s.tasks[t].key, e)
    ensures var s', l := Apply(c, s, t, e), c.loc(s.tasks[t].key);
      PartOf(k, s', p.(store := SetSlot(p.store, l, e.stored), held := Hold(p.held, l, e.stored)))
  {
    var j := s.tasks[t].key;
    OtherTasks(k, s.tasks, p.tasks, t, e);
    OtherSlot(k, j, s.cache, p.cache, e.cached);
    OtherSlot(k, j, s.inner, p.inner, e.current);
  }

  lemma OwnTake(c: Config, k: Key, s: State, p: State, t: Tid, a: Action)
    requires FlightInv(s) && HeldInv(c, s) && PartOf(k, s, p)
    requires Enabled(c, s, Take(t, a)) && s.tasks[t].key == k
    ensures Enabled(c, p, Take(t, a)) && PartOf(k, Do(c, s, Take(t, a)), Do(c, p, Take(t, a)))
  {
    hide Act, FlightInv, HeldInv, Apply;
    SameView(c, k, s, p, t);
    StepFrame(c, s, t, a);
    OwnApply(c, k, s, p, t, Act(c, t, ViewOf(c, s, t), a).value);
  }

  lemma OtherTake(c: Config, k: Key, s: State, p: State, t: Tid, a: Action)
    requires FlightInv(s) && HeldInv(c, s) && PartOf(k, s, p)
    requires Enabled(c, s, Take(t, a)) && s.tasks[t].key != k
    ensures PartOf(k, Do(c, s, Take(t, a)),
      if a.Commit? then Do(c, p, External(c.loc(s.tasks[t].key), Act(c, t, ViewOf(c, s, t), a).value.stored)) else p)
  {
    hide Act, FlightInv, HeldInv, Apply, PartOf;
    var e, l := Act(c, t, ViewOf(c, s, t), a).value, c.loc(s.tasks[t].key);
    StepFrame(c, s, t, a);
    OtherApply(c, k, s, p, t, e);
    if !a.Commit? {
      Unwritten(c, k, s, p, l);
    }
  }

  lemma Unwritten(c: Config, k: Key, s: State, p: State, l: Loc)
    requires HeldInv(c, s) && PartOf(k, s, p)
    ensures p.(store := SetSlot(p.store, l, SlotOf(s.store, l)), held := Hold(p.held, l, SlotOf(s.store, l))) == p
  {
    SetSlotSame(s.store, l);
    assert Hold(p.held, l, SlotOf(s.store, l)) == p.held;
  }

  lemma ProjectArrive(c: Config, k: Key, s: State, p: State, t: Tid, x: Task)
    requires PartOf(k, s, p) && t !in s.tasks
    ensures t !in p.tasks
    ensures PartOf(k, s.(tasks := s.tasks[t := x]), if x.key == k then p.(tasks := p.tasks[t := x]) else p)
  {}

  lemma ProjectEvict(c: Config, k: Key, s: State, p: State, key: Key)
    requires PartOf(k, s, p)
    ensures PartOf(k, s.(cache := s.cache - {key}), if key == k then p.(cache := p.cache - {key}) else p)
  {
    hide PartTasks, PartFlights;
  }

  lemma ProjectExternal(c: Config, k: Key, s: State, p: State, l: Loc, body: Option<Bytes>)
    requires PartOf(k, s, p)
    ensures PartOf(k, s.(store := SetSlot(s.store, l, body), held := Hold(s.held, l, body)),
                      p.(store := SetSlot(p.store, l, body), held := Hold(p.held, l, body)))
  {
    hide PartTasks, PartFlights, PartSlot;
  }

  lemma ProjectRequest(c: Config, k: Key, s: State, p: State, step: Step)
    requires PartOf(k, s, p) && Enabled(c, s, step) && !step.Take?
    ensures var q := Project(c, k, s, step);
      && (q == [] ==> PartOf(k, Do(c, s, step), p))
      && (q != [] ==> q == [step] && Enabled(c, p, step) && PartOf(k, Do(c, s, step), Do(c, p, step)))
  {
    hide Act, Apply, PartOf;
    match step
    case Arrive(t, kind, key, stream) => ProjectArrive(c, k, s, p, t, Task(kind, key, Running(FirstPhase(kind, stream))));
    case Evict(key) => ProjectEvict(c, k, s, p, key);
    case External(l, body) => ProjectExternal(c, k, s, p, l, body);
  }

  lemma ProjectStep(c: Config, k: Key, s: State, p: State, step: Step)
    requires FlightInv(s) && HeldInv(c, s) && PartOf(k, s, p) && Enabled(c, s, step)
    ensures var q := Project(c, k, s, step);
      && |q| <= 1
      && (q == [] ==> PartOf(k, Do(c, s, step), p))
      && (q != [] ==> Enabled(c, p, q[0]) && PartOf(k, Do(c, s, step), Do(c, p, q[0])))
  {
    hide FlightInv, HeldInv, Act, Apply, PartOf;
    match step
    case Arrive(_, _, _, _) => ProjectRequest(c, k, s, p, step);
    case Take(t, a) =>
      if s.tasks[t].key == k { OwnTake(c, k, s, p, t, a); } else { OtherTake(c, k, s, p, t, a); }
    case Evict(_) => ProjectRequest(c, k, s, p, step);
    case External(_, _) => ProjectRequest(c, k, s, p, step);
  }

  /** `k`'s part of a state in which no task has arrived. */
  function Only(k: Key, s: State): State {
    s.(cache := if k in s.cache then map[k := s.cache[k]] else map[])
  }

  /** All of a run's tasks, cached entries and in-flight entries are of one key. */
  ghost predicate SingleKey(k: Key, r: Run) {
    forall i :: 0 <= i < |r.states| ==>
      && r.states[i].cache.Keys <= {k} && r.states[i].inner.Keys <= {k}
      && (forall t :: t in r.states[i].tasks ==> r.states[i].tasks[t].key == k)
      && (forall e :: e in r.states[i].flights ==> r.states[i].flights[e].key == k)
  }

  /** The first `n` steps of a run. */
  function Prefix(r: Run, n: nat): Run
    requires n < |r.states| && n <= |r.steps|
  {
    Run(r.states[..n + 1], r.steps[..n])
  }

  /** Dropping the steps of all other keys from a run, and keeping their uploads
      only as writes to the store, leaves a run of the one key's protocol: with the
      same cache slot, in-flight slot and entries, and with the same tasks, at the
      same phase or with the same outcome. */
  lemma {:induction false} Projection(c: Config, r: Run, k: Key) returns (q: Run)
    requires ValidRun(c, r)
    ensures ValidRun(c, q) && SingleKey(k, q)
    ensures |q.steps| <= |r.steps|
    ensures q.states[0] == Only(k, r.states[0])
    ensures PartOf(k, r.states[|r.steps|], q.states[|q.steps|])
    decreases |r.steps|
  {
    var n := |r.steps|;
    if n == 0 {
      q := Run([Only(k, r.states[0])], []);
    } else {
      hide Enabled, Do, Init, FlightInv, HeldInv, PartOf, SingleKey;
      var front := Prefix(r, n - 1);
      q := Projection(c, front, k);
      var s, p := r.states[n - 1], q.states[|q.steps|];
      RunKeeps(c, r, n - 1);
      RunHeld(c, r, n - 1);
      ProjectStep(c, k, s, p, r.steps[n - 1]);
      var tail := Project(c, k, s, r.steps[n - 1]);
      if tail != [] {
        q := Extend(c, k, q, tail[0], r.states[n]);
      }
    }
  }

  lemma Extend(c: Config, k: Key, q: Run, step: Step, s': State) returns (q': Run)
    requires ValidRun(c, q) && SingleKey(k, q)
    requires Enabled(c, q.states[|q.steps|], step)
    requires PartOf(k, s', Do(c, q.states[|q.steps|], step))
    ensures q' == Run(q.states + [Do(c, q.states[|q.steps|], step)], q.steps + [step])
    ensures ValidRun(c, q') && SingleKey(k, q')
  {
    hide Enabled, Do;
    q' := Run(q.states + [Do(c, q.states[|q.steps|], step)], q.steps + [step]);
  }

  // ----- Steps on different keys commute -----

  /** The two steps draw different fresh identifiers. */
  predicate DifferentIds(a: Action, b: Action) {
    && (a.Elect? && b.Elect? ==> a.id != b.id)
    && (a.Spawn? && b.Spawn? ==> a.child != b.child)
  }

  predicate Apart(c: Config, s: State, t: Tid, a: Action, u: Tid, b: Action) {
    && t in s.tasks && u in s.tasks
    && s.tasks[t].key != s.tasks[u].key
    && c.loc(s.tasks[t].key) != c.loc(s.tasks[u].key)
    && DifferentIds(a, b)
  }

  /** Neither step is seen by the other task. */
  lemma Unseen(c: Config, s: State, t: Tid, a: Action, u: Tid, b: Action)
    requires FlightInv(s) && HeldInv(c, s) && Enabled(c, s, Take(t, a)) && Enabled(c, s, Take(u, b))
    requires Apart(c, s, t, a, u, b)
    ensures var s' := Do(c, s, Take(t, a));
      u in s'.tasks && s'.tasks[u] == s.tasks[u] && ViewOf(c, s', u) == ViewOf(c, s, u) && Enabled(c, s', Take(u, b))
  {
    hide Act, FlightInv, HeldInv;
    StepFrame(c, s, t, a);
    EntryKey(s, u);
  }

  predicate EffectsApart(s: State, t: Tid, d: Effect, u: Tid, e: Effect) {
    && t in s.tasks && u in s.tasks && t != u
    && (d.spawn.Some? ==> d.spawn.value !in s.tasks && d.spawn != e.spawn)
    && (e.spawn.Some? ==> e.spawn.value !in s.tasks)
    && (d.flight.Some? && e.flight.Some? ==> d.flight.value.0 != e.flight.value.0)
  }

  lemma TasksCommute(m: map<Tid, Task>, t: Tid, x: Task, ct: Option<Tid>, j: Key, u: Tid, y: Task, cu: Option<Tid>, k: Key)
    requires t in m && u in m && t != u
    requires (ct.Some? ==> ct.value !in m && ct != cu) && (cu.Some? ==> cu.value !in m)
    ensures WithChild(WithChild(m, ct, j)[t := x], cu, k)[u := y] == WithChild(WithChild(m, cu, k)[u := y], ct, j)[t := x]
  {}

  lemma FlightsCommute(m: map<Eid, Flight>, d: Option<(Eid, Flight)>, e: Option<(Eid, Flight)>)
    requires d.Some? && e.Some? ==> d.value.0 != e.value.0
    ensures Touch(Touch(m, d), e) == Touch(Touch(m, e), d)
  {}

  lemma BumpsCommute<K>(m: multiset<K>, x: K, d: bool, y: K, e: bool)
    ensures Bump(Bump(m, x, d), y, e) == Bump(Bump(m, y, e), x, d)
  {}

  lemma CountersCommute(m: Metrics, x: Method, d: Emit, y: Method, e: Emit)
    ensures Count(Count(m, x, d), y, e) == Count(Count(m, y, e), x, d)
  {
    hide Bump;
    BumpsCommute(m.requests, x, d.request, y, e.request);
    BumpsCommute(m.hits, x, d.hit, y, e.hit);
    BumpsCommute(m.misses, x, d.miss, y, e.miss);
    BumpsCommute(m.upstreamOk, x, d.ok, y, e.ok);
    BumpsCommute(m.upstreamErr, x, d.err, y, e.err);
  }

  lemma HistoryCommutes(h: History, j: Key, d: Emit, k: Key, e: Emit)
    ensures Record(Record(h, j, d), k, e) == Record(Record(h, k, e), j, d)
  {
    hide Bump;
    BumpsCommute(h.missed, j, d.miss, k, e.miss);
    BumpsCommute(h.permits, j, d.permit, k, e.permit);
    BumpsCommute(h.nones, j, d.none, k, e.none);
    BumpsCommute(h.gets, j, d.get, k, e.get);
  }

  lemma HoldCommutes(h: set<(Loc, Bytes)>, l: Loc, b: Option<Bytes>, m: Loc, d: Option<Bytes>)
    ensures Hold(Hold(h, l, b), m, d) == Hold(Hold(h, m, d), l, b)
  {}

  lemma ApplyCommutes(c: Config, s: State, t: Tid, d: Effect, u: Tid, e: Effect)
    requires EffectsApart(s, t, d, u, e)
    requires s.tasks[t].key != s.tasks[u].key && c.loc(s.tasks[t].key) != c.loc(s.tasks[u].key)
    ensures Apply(c, Apply(c, s, t, d), u, e) == Apply(c, Apply(c, s, u, e), t, d)
  {
    hide SetSlot, Hold, Count, Record, Touch;
    var x, y := s.tasks[t], s.tasks[u];
    TasksCommute(s.tasks, t, x.(status := d.status), d.spawn, x.key, u, y.(status := e.status), e.spawn, y.key);
    FlightsCommute(s.flights, d.flight, e.flight);
    CountersCommute(s.metrics, MethodOf(x.kind), d.emit, MethodOf(y.kind), e.emit);
    HistoryCommutes(s.history, x.key, d.emit, y.key, e.emit);
    HoldCommutes(s.held, c.loc(x.key), d.stored, c.loc(y.key), e.stored);
    SetSlotCommutes(s.store, c.loc(x.key), d.stored, c.loc(y.key), e.stored);
    SetSlotCommutes(s.cache, x.key, d.cached, y.key, e.cached);
    SetSlotCommutes(s.inner, x.key, d.current, y.key, e.current);
  }

  lemma ApartEffects(c: Config, s: State, t: Tid, a: Action, u: Tid, b: Action)
    requires FlightInv(s) && HeldInv(c, s) && Enabled(c, s, Take(t, a)) && Enabled(c, s, Take(u, b))
    requires Apart(c, s, t, a, u, b)
    ensures EffectsApart(s, t, Act(c, t, ViewOf(c, s, t), a).value, u, Act(c, u, ViewOf(c, s, u), b).value)
  {
    hide Act, FlightInv, HeldInv;
    StepFrame(c, s, t, a);
    StepFrame(c, s, u, b);
  }

  /** In every reachable state, two steps that are possible there, of tasks on
      different keys naming different objects, stay possible after each other and
      lead to the same state in either order. */
  lemma StepsCommute(c: Config, r: Run, i: nat, t: Tid, a: Action, u: Tid, b: Action)
    requires ValidRun(c, r) && i < |r.states|
    requires Enabled(c, r.states[i], Take(t, a)) && Enabled(c, r.states[i], Take(u, b))
    requires Apart(c, r.states[i], t, a, u, b)
    ensures var s := r.states[i];
      && Enabled(c, Do(c, s, Take(t, a)), Take(u, b))
      && Enabled(c, Do(c, s, Take(u, b)), Take(t, a))
      && Do(c, Do(c, s, Take(t, a)), Take(u, b)) == Do(c, Do(c, s, Take(u, b)), Take(t, a))
  {
    hide Act, FlightInv, HeldInv, Apply, ValidRun, EffectsApart;
    var s := r.states[i];
    RunKeeps(c, r, i);
    RunHeld(c, r, i);
    Unseen(c, s, t, a, u, b);
    Unseen(c, s, u, b, t, a);
    ApartEffects(c, s, t, a, u, b);
    ApplyCommutes(c, s, t, Act(c, t, ViewOf(c, s, t), a).value, u, Act(c, u, ViewOf(c, s, u), b).value);
  }
}
