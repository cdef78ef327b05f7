/** Single flight: what every interleaving keeps true of the in-flight map, its
    entries and the tasks that lead or follow them (src/inflight.rs). */
module Flights {
  import opened Prelude
  import opened Slots
  import opened Service

  /** How a task stands to an in-flight entry: it led the entry, wrote `written`
      and may still owe its release; it waits in the entry's list, having
      registered before the release or not; or it is another follower, which may
      have been told a result. */
  datatype Role =
    | Free(key: Key)
    | Leads(key: Key, eid: Eid, written: Option<Fetched>, owes: bool)
    | Waits(key: Key, eid: Eid, early: bool)
    | Linked(key: Key, eid: Eid, told: Option<Option<Fetched>>)

  function Written(p: Phase): Option<Fetched> {
    if p.Releasing? then Some(p.result) else None
  }

  function UnguardedAt(p: Phase): bool {
    match p
    case Fetching(o) => o.Unguarded?
    case Getting(o) => o.Unguarded?
    case Reading(o, _) => o.Unguarded?
    case Inserting(o, _) => o.Unguarded?
    case _ => false
  }

  function Told(p: Phase): Option<Option<Fetched>> {
    if p.Relooking? then Some(Some(Ok(p.entry)))
    else if UnguardedAt(p) then Some(None)
    else None
  }

  function RoleAt(k: Key, p: Phase, running: bool, owes: bool): Role {
    if GuardAt(p).Some? then Leads(k, GuardAt(p).value, Written(p), owes)
    else if p.Waiting? && running then Waits(k, p.eid, p.early)
    else if EntryAt(p).Some? then Linked(k, EntryAt(p).value, Told(p))
    else Free(k)
  }

  function RoleOf(x: Task): Role {
    match x.status
    case Running(p) => RoleAt(x.key, p, true, true)
    case Dropping(p) => RoleAt(x.key, p, false, true)
    case Cancelled(p) => RoleAt(x.key, p, false, false)
    case Finished(Led(e, r)) => Leads(x.key, e, Some(r), false)
    case Finished(Shared(e, r)) => Linked(x.key, e, Some(Some(r)))
    case Finished(Rehit(e, _)) => Linked(x.key, e, None)
    case Finished(Fallback(e, _)) => Linked(x.key, e, Some(None))
    case Finished(Skipped(e)) => Linked(x.key, e, None)
    case _ => Free(x.key)
  }

  function Roles(tasks: map<Tid, Task>): map<Tid, Role> {
    map t | t in tasks :: RoleOf(tasks[t])
  }

  /** An entry has one leader; its result is what that leader wrote; it is in the
      map and unreleased exactly as long as its leader owes the release. */
  ghost predicate FlightOk(inner: map<Key, Eid>, roles: map<Tid, Role>, e: Eid, f: Flight) {
    && f.leader in roles
    && roles[f.leader] == Leads(f.key, e, f.result, f.releases == 0)
    && f.writes == (if f.result.Some? then 1 else 0)
    && f.releases <= 1
    && (f.releases == 0 <==> SlotOf(inner, f.key) == Some(e))
    && forall t :: t in f.waiters + f.notified ==> t in roles && roles[t].Waits? && roles[t].eid == e
  }

  /** A follower that registered before the release waits in the list until the
      release moves it; one that registered later stays in the list for good. */
  predicate ListedOk(f: Flight, t: Tid, early: bool) {
    && (f.releases == 0 ==> early)
    && (t in f.notified <==> early && f.releases == 1)
    && (t in f.waiters <==> !(early && f.releases == 1))
  }

  predicate RoleOk(flights: map<Eid, Flight>, t: Tid, r: Role) {
    r.Free? ||
    (&& r.eid in flights && flights[r.eid].key == r.key
     && (r.Leads? ==> flights[r.eid].leader == t)
     && (r.Waits? ==> ListedOk(flights[r.eid], t, r.early))
     && (r.Linked? && r.told.Some? ==>
           flights[r.eid].releases == 1 && flights[r.eid].result == r.told.value))
  }

  predicate SlotOk(flights: map<Eid, Flight>, k: Key, e: Eid) {
    e in flights && flights[e].key == k && flights[e].releases == 0
  }

  ghost predicate Consistent(inner: map<Key, Eid>, flights: map<Eid, Flight>, roles: map<Tid, Role>) {
    && (forall k :: k in inner ==> SlotOk(flights, k, inner[k]))
    && (forall e :: e in flights ==> FlightOk(inner, roles, e, flights[e]))
    && (forall t :: t in roles ==> RoleOk(flights, t, roles[t]))
  }

  ghost predicate FlightInv(s: State) {
    Consistent(s.inner, s.flights, Roles(s.tasks))
  }

  // ----- Every kind of step keeps it -----

  /** An entry is unaffected by a step of a task outside its lists that keeps its
      role if it is the leader. */
  lemma FlightFrame(inner: map<Key, Eid>, inner': map<Key, Eid>, roles: map<Tid, Role>,
                    t: Tid, r: Role, e: Eid, f: Flight)
    requires FlightOk(inner, roles, e, f)
    requires SlotOf(inner', f.key) == Some(e) <==> SlotOf(inner, f.key) == Some(e)
    requires t in roles ==> !(roles[t].Waits? && roles[t].eid == e) && (roles[t].Leads? && roles[t].eid == e ==> r == roles[t])
    ensures FlightOk(inner', roles[t := r], e, f)
  {}

  /** A step of `t` that touches no entry: its task becomes a follower of the
      current entry, keeps following as it did, or was and stays free. */
  lemma NeutralKeeps(inner: map<Key, Eid>, flights: map<Eid, Flight>, roles: map<Tid, Role>, t: Tid, r: Role)
    requires Consistent(inner, flights, roles)
    requires t in roles ==> !roles[t].Waits? && (roles[t].Leads? ==> r == roles[t])
    requires || r.Free?
             || (t in roles && r == roles[t])
             || (r.Linked? && r.told.None? && SlotOf(inner, r.key) == Some(r.eid))
             || (r.Linked? && r.told.None? && t in roles && roles[t].Linked? && roles[t].eid == r.eid && roles[t].key == r.key)
    ensures Consistent(inner, flights, roles[t := r])
  {
    forall e | e in flights ensures FlightOk(inner, roles[t := r], e, flights[e]) {
      FlightFrame(inner, inner, roles, t, r, e, flights[e]);
    }
    assert t in roles ==> RoleOk(flights, t, roles[t]);
  }

  /** A step of `t` that rewrites entry `e`, which no other task leads, and at
      most its key's slot. */
  lemma TouchKeeps(inner: map<Key, Eid>, inner': map<Key, Eid>, flights: map<Eid, Flight>,
                   roles: map<Tid, Role>, t: Tid, r: Role, e: Eid, f: Flight)
    requires Consistent(inner, flights, roles)
    requires forall k :: k in inner' ==> SlotOk(flights[e := f], k, inner'[k])
    requires forall g :: g in flights && g != e ==>
      (SlotOf(inner', flights[g].key) == Some(g) <==> SlotOf(inner, flights[g].key) == Some(g))
    requires t in roles && (roles[t].Free? || roles[t].eid == e)
    requires FlightOk(inner', roles[t := r], e, f)
    requires RoleOk(flights[e := f], t, r)
    requires forall u :: u in roles && u != t && !roles[u].Free? && roles[u].eid == e ==> RoleOk(flights[e := f], u, roles[u])
    ensures Consistent(inner', flights[e := f], roles[t := r])
  {
    forall g | g in flights && g != e ensures FlightOk(inner', roles[t := r], g, flights[g]) {
      FlightFrame(inner, inner', roles, t, r, g, flights[g]);
    }
    forall u | u in roles && u != t ensures RoleOk(flights[e := f], u, roles[u]) {
      assert RoleOk(flights, u, roles[u]);
    }
  }

  /** What a step of `t` may do to an existing entry: key and leader stay, a
      released entry keeps its result and stays released, and every other
      follower in its lists stands right afterwards. */
  ghost predicate Evolves(f: Flight, g: Flight, t: Tid) {
    && g.key == f.key && g.leader == f.leader
    && (f.releases == 1 ==> g.releases == 1 && g.result == f.result)
    && forall u, early :: u != t && ListedOk(f, u, early) ==> ListedOk(g, u, early)
  }

  lemma RoleEvolves(flights: map<Eid, Flight>, t: Tid, e: Eid, g: Flight, u: Tid, r: Role)
    requires e in flights && Evolves(flights[e], g, t) && u != t && RoleOk(flights, u, r)
    ensures RoleOk(flights[e := g], u, r)
  {}

  /** The entry of a task that is not free, as the invariant has it. */
  lemma Standing(inner: map<Key, Eid>, flights: map<Eid, Flight>, roles: map<Tid, Role>, t: Tid)
    requires Consistent(inner, flights, roles) && t in roles && !roles[t].Free?
    ensures RoleOk(flights, t, roles[t])
    ensures FlightOk(inner, roles, roles[t].eid, flights[roles[t].eid])
  {
    assert RoleOk(flights, t, roles[t]);
  }

  lemma RolesEvolve(inner: map<Key, Eid>, flights: map<Eid, Flight>, roles: map<Tid, Role>, t: Tid, e: Eid, g: Flight)
    requires Consistent(inner, flights, roles) && e in flights && Evolves(flights[e], g, t)
    ensures forall u :: u in roles && u != t ==> RoleOk(flights[e := g], u, roles[u])
  {
    hide FlightOk, SlotOk, RoleOk, Evolves;
    forall u | u in roles && u != t ensures RoleOk(flights[e := g], u, roles[u]) {
      RoleEvolves(flights, t, e, g, u, roles[u]);
    }
  }

  lemma SlotsEvolve(inner: map<Key, Eid>, inner': map<Key, Eid>, flights: map<Eid, Flight>, roles: map<Tid, Role>,
                    t: Tid, e: Eid, g: Flight)
    requires Consistent(inner, flights, roles) && e in flights && Evolves(flights[e], g, t)
    requires if g.releases == flights[e].releases then inner' == inner
             else SlotOf(inner, g.key) == Some(e) && inner' == inner - {g.key}
    ensures forall k :: k in inner' ==> SlotOk(flights[e := g], k, inner'[k])
    ensures forall f :: f in flights && f != e ==>
      (SlotOf(inner', flights[f].key) == Some(f) <==> SlotOf(inner, flights[f].key) == Some(f))
  {
    hide FlightOk, RoleOk;
    forall k | k in inner' ensures SlotOk(flights[e := g], k, inner'[k]) {
      assert SlotOk(flights, k, inner[k]);
    }
  }

  lemma EvolveKeeps(inner: map<Key, Eid>, inner': map<Key, Eid>, flights: map<Eid, Flight>,
                    roles: map<Tid, Role>, t: Tid, r: Role, e: Eid, g: Flight)
    requires Consistent(inner, flights, roles)
    requires e in flights && Evolves(flights[e], g, t)
    requires if g.releases == flights[e].releases then inner' == inner
             else SlotOf(inner, g.key) == Some(e) && inner' == inner - {g.key}
    requires t in roles && !roles[t].Free? && roles[t].eid == e
    requires FlightOk(inner', roles[t := r], e, g)
    requires RoleOk(flights[e := g], t, r)
    ensures Consistent(inner', flights[e := g], roles[t := r])
  {
    hide Consistent, Evolves, FlightOk, SlotOk, RoleOk;
    RolesEvolve(inner, flights, roles, t, e, g);
    SlotsEvolve(inner, inner', flights, roles, t, e, g);
    TouchKeeps(inner, inner', flights, roles, t, r, e, g);
  }

  /** acquire, as leader. */
  lemma ElectKeeps(inner: map<Key, Eid>, flights: map<Eid, Flight>, roles: map<Tid, Role>, t: Tid, k: Key, e: Eid)
    requires Consistent(inner, flights, roles)
    requires t in roles && roles[t].Free? && k !in inner && e !in flights
    ensures Consistent(inner[k := e], flights[e := Flight(k, t, None, {}, {}, 0, 0)], roles[t := Leads(k, e, None, true)])
  {
    forall u | u in roles && u != t && !roles[u].Free? ensures roles[u].eid != e {
      assert RoleOk(flights, u, roles[u]);
    }
    TouchKeeps(inner, inner[k := e], flights, roles, t, Leads(k, e, None, true), e, Flight(k, t, None, {}, {}, 0, 0));
  }

  lemma WriteEvolves(inner: map<Key, Eid>, roles: map<Tid, Role>, t: Tid, k: Key, e: Eid, f: Flight, r: Fetched)
    requires FlightOk(inner, roles, e, f) && f.leader == t && roles[t] == Leads(k, e, None, true)
    ensures Evolves(f, Filled(f, r), t) && FlightOk(inner, roles[t := Leads(k, e, Some(r), true)], e, Filled(f, r))
  {}

  /** complete, before its release. */
  lemma WriteKeeps(inner: map<Key, Eid>, flights: map<Eid, Flight>, roles: map<Tid, Role>,
                   t: Tid, k: Key, e: Eid, r: Fetched)
    requires Consistent(inner, flights, roles)
    requires t in roles && roles[t] == Leads(k, e, None, true)
    ensures e in flights && flights[e].writes == 0
    ensures Consistent(inner, flights[e := Filled(flights[e], r)],
                       roles[t := Leads(k, e, Some(r), true)])
  {
    Standing(inner, flights, roles, t);
    var f := flights[e];
    WriteEvolves(inner, roles, t, k, e, f, r);
    EvolveKeeps(inner, inner, flights, roles, t, Leads(k, e, Some(r), true), e, Filled(f, r));
  }

  lemma ReleaseEvolves(inner: map<Key, Eid>, roles: map<Tid, Role>, t: Tid, k: Key, e: Eid, f: Flight, w: Option<Fetched>)
    requires FlightOk(inner, roles, e, f) && f.leader == t && roles[t] == Leads(k, e, w, true)
    ensures Evolves(f, Released(f), t) && f.key == k && f.releases == 0
    ensures FlightOk(inner - {k}, roles[t := Leads(k, e, w, false)], e, Released(f))
  {}

  /** release, from complete or from the task spawned by a dropped guard: the
      entry is always still the slot's current one. */
  lemma ReleaseKeeps(inner: map<Key, Eid>, flights: map<Eid, Flight>, roles: map<Tid, Role>,
                     t: Tid, k: Key, e: Eid, w: Option<Fetched>)
    requires Consistent(inner, flights, roles)
    requires t in roles && roles[t] == Leads(k, e, w, true)
    ensures e in flights && flights[e].releases == 0
    ensures Releases(SlotOf(inner, k), e)
    ensures Consistent(inner - {k}, flights[e := Released(flights[e])], roles[t := Leads(k, e, w, false)])
  {
    Standing(inner, flights, roles, t);
    ReleaseEvolves(inner, roles, t, k, e, flights[e], w);
    EvolveKeeps(inner, inner - {k}, flights, roles, t, Leads(k, e, w, false), e, Released(flights[e]));
  }

  lemma JoinEvolves(inner: map<Key, Eid>, roles: map<Tid, Role>, t: Tid, k: Key, e: Eid, f: Flight)
    requires FlightOk(inner, roles, e, f) && t in roles && roles[t] == Linked(k, e, None)
    ensures var r := Waits(k, e, f.releases == 0);
      && Evolves(f, Joined(f, t), t)
      && ListedOk(Joined(f, t), t, r.early)
      && FlightOk(inner, roles[t := r], e, Joined(f, t))
  {
    assert t !in f.waiters + f.notified;
  }

  /** Registering as a waiter. */
  lemma RegisterKeeps(inner: map<Key, Eid>, flights: map<Eid, Flight>, roles: map<Tid, Role>, t: Tid, k: Key, e: Eid)
    requires Consistent(inner, flights, roles)
    requires t in roles && roles[t] == Linked(k, e, None)
    ensures e in flights
    ensures Consistent(inner, flights[e := Joined(flights[e], t)], roles[t := Waits(k, e, flights[e].releases == 0)])
  {
    Standing(inner, flights, roles, t);
    JoinEvolves(inner, roles, t, k, e, flights[e]);
    EvolveKeeps(inner, inner, flights, roles, t, Waits(k, e, flights[e].releases == 0), e, Joined(flights[e], t));
  }

  lemma LeaveEvolves(inner: map<Key, Eid>, roles: map<Tid, Role>, t: Tid, e: Eid, f: Flight, r: Role)
    requires FlightOk(inner, roles, e, f) && t in roles && roles[t].Waits? && roles[t].eid == e && !r.Leads?
    ensures Evolves(f, Left(f, t), t) && FlightOk(inner, roles[t := r], e, Left(f, t))
  {}

  /** A waiter leaves the lists: woken, or cancelled. */
  lemma LeaveKeeps(inner: map<Key, Eid>, flights: map<Eid, Flight>, roles: map<Tid, Role>, t: Tid, r: Role)
    requires Consistent(inner, flights, roles)
    requires t in roles && roles[t].Waits? && r.Linked? && r.key == roles[t].key && r.eid == roles[t].eid
    requires r.told.Some? ==> r.eid in flights && t in flights[r.eid].notified && flights[r.eid].result == r.told.value
    ensures r.eid in flights
    ensures Consistent(inner, flights[r.eid := Left(flights[r.eid], t)], roles[t := r])
  {
    Standing(inner, flights, roles, t);
    LeaveEvolves(inner, roles, t, r.eid, flights[r.eid], r);
    EvolveKeeps(inner, inner, flights, roles, t, r, r.eid, Left(flights[r.eid], t));
  }

  // ----- The steps of the service -----

  function RoleAfter(v: View, e: Effect): Role {
    RoleOf(v.task.(status := e.status))
  }

  predicate NeutralEffect(v: View, e: Effect) {
    var r0, r1 := RoleOf(v.task), RoleAfter(v, e);
    && e.flight.None? && e.current == v.current
    && !r0.Waits? && (r0.Leads? ==> r1 == r0)
    && (|| r1.Free? || r1 == r0
        || (r1.Linked? && r1.told.None? && v.current == Some(r1.eid) && r1.key == v.task.key)
        || (r1.Linked? && r1.told.None? && r0.Linked? && r0.eid == r1.eid && r0.key == r1.key))
  }

  /** The phases whose steps touch an in-flight entry. */
  predicate Touches(p: Phase) {
    p.Acquiring? || p.Completing? || p.Releasing? || p.Registering? || p.Waiting?
  }

  predicate FetchPhase(p: Phase) {
    p.Fetching? || p.Getting? || p.Reading? || p.Inserting?
  }

  predicate PutPhase(p: Phase) {
    p.PutStarting? || p.PutOpening? || p.Streaming? || p.Aborting? || p.Finishing? || p.Storing?
  }

  lemma FetchingNeutral(c: Config, t: Tid, v: View, p: Phase, a: Action)
    requires v.task.status == Running(p) && !a.Cancel?
    requires FetchPhase(p) || p.Relooking?
    ensures ActRunning(c, t, v, p, a).Some? ==> NeutralEffect(v, ActRunning(c, t, v, p, a).value)
  {}

  lemma OtherNeutral(c: Config, t: Tid, v: View, p: Phase, a: Action)
    requires v.task.status == Running(p) && !a.Cancel?
    requires !Touches(p)
    ensures ActRunning(c, t, v, p, a).Some? ==> NeutralEffect(v, ActRunning(c, t, v, p, a).value)
  {
    if FetchPhase(p) || p.Relooking? {
      FetchingNeutral(c, t, v, p, a);
    }
  }

  lemma CancelNeutral(c: Config, t: Tid, v: View, p: Phase)
    requires v.task.status == Running(p) && !p.Waiting?
    ensures NeutralEffect(v, ActCancel(t, v, p))
  {}

  /** What a step does to the roles. */
  lemma RolesAfter(c: Config, s: State, t: Tid, e: Effect)
    requires t in s.tasks && (e.spawn.Some? ==> e.spawn.value !in s.tasks)
    ensures var x := s.tasks[t];
      Roles(Apply(c, s, t, e).tasks) ==
        (if e.spawn.Some? then Roles(s.tasks)[e.spawn.value := Free(x.key)] else Roles(s.tasks))
          [t := RoleOf(x.(status := e.status))]
  {}

  /** The parts of the next state that the invariant speaks of. */
  lemma AfterStep(c: Config, s: State, t: Tid, e: Effect)
    requires t in s.tasks && (e.spawn.Some? ==> e.spawn.value !in s.tasks)
    ensures var x, s' := s.tasks[t], Apply(c, s, t, e);
      && s'.inner == SetSlot(s.inner, x.key, e.current)
      && s'.flights == (if e.flight.Some? then s.flights[e.flight.value.0 := e.flight.value.1] else s.flights)
      && Roles(s'.tasks) ==
           (if e.spawn.Some? then Roles(s.tasks)[e.spawn.value := Free(x.key)] else Roles(s.tasks))
             [t := RoleOf(x.(status := e.status))]
  {
    RolesAfter(c, s, t, e);
  }

  lemma NeutralStep(c: Config, s: State, t: Tid, e: Effect)
    requires FlightInv(s) && t in s.tasks
    requires NeutralEffect(ViewOf(c, s, t), e) && (e.spawn.Some? ==> e.spawn.value !in s.tasks)
    ensures FlightInv(Apply(c, s, t, e))
  {
    var k := s.tasks[t].key;
    var roles := Roles(s.tasks);
    var r := RoleAfter(ViewOf(c, s, t), e);
    AfterStep(c, s, t, e);
    SetSlotSame(s.inner, k);
    if e.spawn.Some? {
      NeutralKeeps(s.inner, s.flights, roles, e.spawn.value, Free(k));
      NeutralKeeps(s.inner, s.flights, roles[e.spawn.value := Free(k)], t, r);
    } else {
      NeutralKeeps(s.inner, s.flights, roles, t, r);
    }
  }

  /** A step that rewrites the entry its task belongs to, as `g`. */
  predicate Rewrites(v: View, e: Effect, eid: Eid, g: Flight) {
    e.spawn.None? && e.flight == Some((eid, g))
  }

  lemma ElectEffect(c: Config, t: Tid, v: View, a: Action, e: Effect)
    requires Act(c, t, v, a) == Some(e) && v.task.status == Running(Acquiring) && !a.Cancel?
    ensures a.Elect?
    ensures v.current.None? ==>
      && Rewrites(v, e, a.id, Flight(v.task.key, t, None, {}, {}, 0, 0)) && e.current == Some(a.id)
      && RoleAfter(v, e) == Leads(v.task.key, a.id, None, true)
    ensures v.current.Some? ==> NeutralEffect(v, e)
  {}

  lemma ElectStep(c: Config, s: State, t: Tid, e: Effect, id: Eid)
    requires FlightInv(s) && t in s.tasks && RoleOf(s.tasks[t]).Free?
    requires s.tasks[t].key !in s.inner && id !in s.flights && e.current == Some(id)
    requires Rewrites(ViewOf(c, s, t), e, id, Flight(s.tasks[t].key, t, None, {}, {}, 0, 0))
    requires RoleAfter(ViewOf(c, s, t), e) == Leads(s.tasks[t].key, id, None, true)
    ensures FlightInv(Apply(c, s, t, e))
  {
    AfterStep(c, s, t, e);
    ElectKeeps(s.inner, s.flights, Roles(s.tasks), t, s.tasks[t].key, id);
  }

  lemma WriteEffect(c: Config, t: Tid, v: View, a: Action, e: Effect)
    requires Act(c, t, v, a) == Some(e) && v.task.status.Running? && v.task.status.at.Completing? && !a.Cancel?
    ensures var p := v.task.status.at;
      && v.flight.Some? && e.current == v.current
      && Rewrites(v, e, p.eid, Filled(v.flight.value, p.result))
      && RoleOf(v.task) == Leads(v.task.key, p.eid, None, true)
      && RoleAfter(v, e) == Leads(v.task.key, p.eid, Some(p.result), true)
  {}

  lemma WriteStep(c: Config, s: State, t: Tid, e: Effect, id: Eid, r: Fetched)
    requires FlightInv(s) && t in s.tasks && id in s.flights
    requires var v := ViewOf(c, s, t);
      && e.current == v.current
      && Rewrites(v, e, id, Filled(s.flights[id], r))
      && RoleOf(v.task) == Leads(v.task.key, id, None, true)
      && RoleAfter(v, e) == Leads(v.task.key, id, Some(r), true)
    ensures FlightInv(Apply(c, s, t, e))
  {
    AfterStep(c, s, t, e);
    SetSlotSame(s.inner, s.tasks[t].key);
    WriteKeeps(s.inner, s.flights, Roles(s.tasks), t, s.tasks[t].key, id, r);
  }

  predicate IsRelease(x: Status, a: Action) {
    a.Go? && GuardAt(if x.Finished? then Aborting else x.at).Some? && (x.Dropping? || (x.Running? && x.at.Releasing?))
  }

  lemma ReleaseEffectIs(c: Config, t: Tid, v: View, a: Action, e: Effect)
    requires Act(c, t, v, a) == Some(e) && IsRelease(v.task.status, a)
    ensures var id := GuardAt(v.task.status.at).value;
      && e.spawn.None? && EntryOf(v.task.status) == Some(id)
      && RoleOf(v.task) == Leads(v.task.key, id, Written(v.task.status.at), true)
      && RoleAfter(v, e) == Leads(v.task.key, id, Written(v.task.status.at), false)
      && (Releases(v.current, id) && v.flight.Some? ==>
            e.current.None? && e.flight == Some((id, Released(v.flight.value))))
  {}

  /** The release of a guard, or of the task its destructor spawned. */
  lemma ReleaseStep(c: Config, s: State, t: Tid, e: Effect, id: Eid, w: Option<Fetched>)
    requires FlightInv(s) && t in s.tasks
    requires var v := ViewOf(c, s, t);
      && RoleOf(v.task) == Leads(v.task.key, id, w, true)
      && RoleAfter(v, e) == Leads(v.task.key, id, w, false)
      && e.spawn.None?
      && (Releases(v.current, id) && id in s.flights ==>
            e.current.None? && e.flight == Some((id, Released(s.flights[id]))))
    ensures id in s.flights && Releases(SlotOf(s.inner, s.tasks[t].key), id)
    ensures FlightInv(Apply(c, s, t, e))
  {
    AfterStep(c, s, t, e);
    ReleaseKeeps(s.inner, s.flights, Roles(s.tasks), t, s.tasks[t].key, id, w);
  }

  lemma JoinEffect(c: Config, t: Tid, v: View, a: Action, e: Effect)
    requires Act(c, t, v, a) == Some(e) && v.task.status.Running? && v.task.status.at.Registering? && !a.Cancel?
    ensures var id := v.task.status.at.eid;
      && v.flight.Some? && e.current == v.current && Rewrites(v, e, id, Joined(v.flight.value, t))
      && RoleOf(v.task) == Linked(v.task.key, id, None)
      && RoleAfter(v, e) == Waits(v.task.key, id, v.flight.value.releases == 0)
  {}

  lemma JoinStep(c: Config, s: State, t: Tid, e: Effect, id: Eid)
    requires FlightInv(s) && t in s.tasks && id in s.flights
    requires var v := ViewOf(c, s, t);
      && e.current == v.current && Rewrites(v, e, id, Joined(s.flights[id], t))
      && RoleOf(v.task) == Linked(v.task.key, id, None)
      && RoleAfter(v, e) == Waits(v.task.key, id, s.flights[id].releases == 0)
    ensures FlightInv(Apply(c, s, t, e))
  {
    AfterStep(c, s, t, e);
    SetSlotSame(s.inner, s.tasks[t].key);
    RegisterKeeps(s.inner, s.flights, Roles(s.tasks), t, s.tasks[t].key, id);
  }

  lemma LeaveEffect(c: Config, t: Tid, v: View, a: Action, e: Effect)
    requires Act(c, t, v, a) == Some(e) && v.task.status.Running? && v.task.status.at.Waiting?
    requires v.flight.Some?
    ensures var id, r := v.task.status.at.eid, RoleAfter(v, e);
      && e.current == v.current && Rewrites(v, e, id, Left(v.flight.value, t))
      && RoleOf(v.task) == Waits(v.task.key, id, v.task.status.at.early)
      && r.Linked? && r.key == v.task.key && r.eid == id
      && (r.told.Some? ==> t in v.flight.value.notified && v.flight.value.result == r.told.value)
  {}

  /** A waiter is woken, or cancelled. */
  lemma LeaveStep(c: Config, s: State, t: Tid, e: Effect, id: Eid)
    requires FlightInv(s) && t in s.tasks && id in s.flights
    requires var v, r := ViewOf(c, s, t), RoleAfter(ViewOf(c, s, t), e);
      && e.current == v.current && Rewrites(v, e, id, Left(s.flights[id], t))
      && RoleOf(v.task).Waits? && RoleOf(v.task).key == v.task.key && RoleOf(v.task).eid == id
      && r.Linked? && r.key == v.task.key && r.eid == id
      && (r.told.Some? ==> t in s.flights[id].notified && s.flights[id].result == r.told.value)
    ensures FlightInv(Apply(c, s, t, e))
  {
    AfterStep(c, s, t, e);
    SetSlotSame(s.inner, s.tasks[t].key);
    LeaveKeeps(s.inner, s.flights, Roles(s.tasks), t, RoleAfter(ViewOf(c, s, t), e));
  }

  lemma SpawnIsNew(c: Config, t: Tid, v: View, a: Action)
    ensures Act(c, t, v, a).Some? && Act(c, t, v, a).value.spawn.Some? ==>
      a == Spawn(Act(c, t, v, a).value.spawn.value)
  {}

  lemma RoleEntry(x: Task)
    requires !RoleOf(x).Free?
    ensures EntryOf(x.status) == Some(RoleOf(x).eid) && RoleOf(x).key == x.key
  {}

  /** The entry in a task's view. */
  lemma ViewHasFlight(c: Config, s: State, t: Tid, r: Role)
    requires FlightInv(s) && t in s.tasks && RoleOf(s.tasks[t]) == r && !r.Free?
    ensures r.eid in s.flights && ViewOf(c, s, t).flight == Some(s.flights[r.eid])
  {
    RoleEntry(s.tasks[t]);
    assert Roles(s.tasks)[t] == r;
    assert RoleOk(s.flights, t, r);
  }

  lemma TakeKeeps(c: Config, s: State, t: Tid, a: Action, e: Effect)
    requires FlightInv(s) && t in s.tasks && FreshIds(s, a)
    requires Act(c, t, ViewOf(c, s, t), a) == Some(e)
    ensures FlightInv(Apply(c, s, t, e))
  {
    hide FlightInv, Apply;
    var x := s.tasks[t].status;
    var v := ViewOf(c, s, t);
    SpawnIsNew(c, t, v, a);
    if IsRelease(x, a) {
      ReleaseEffectIs(c, t, v, a, e);
      ViewHasFlight(c, s, t, RoleOf(s.tasks[t]));
      ReleaseStep(c, s, t, e, GuardAt(x.at).value, Written(x.at));
    } else if x.at.Waiting? {
      ViewHasFlight(c, s, t, RoleOf(s.tasks[t]));
      LeaveEffect(c, t, v, a, e);
      LeaveStep(c, s, t, e, x.at.eid);
    } else if a.Cancel? {
      CancelNeutral(c, t, v, x.at);
      NeutralStep(c, s, t, e);
    } else if x.at.Acquiring? {
      ElectEffect(c, t, v, a, e);
      if v.current.None? { ElectStep(c, s, t, e, a.id); } else { NeutralStep(c, s, t, e); }
    } else if x.at.Completing? {
      WriteEffect(c, t, v, a, e);
      ViewHasFlight(c, s, t, RoleOf(s.tasks[t]));
      WriteStep(c, s, t, e, x.at.eid, x.at.result);
    } else if x.at.Registering? {
      JoinEffect(c, t, v, a, e);
      ViewHasFlight(c, s, t, RoleOf(s.tasks[t]));
      JoinStep(c, s, t, e, x.at.eid);
    } else {
      OtherNeutral(c, t, v, x.at, a);
      NeutralStep(c, s, t, e);
    }
  }

  lemma ArriveKeeps(s: State, t: Tid, kind: Kind, key: Key, p: Phase)
    requires FlightInv(s) && t !in s.tasks && (p.Lookup? || p.PutStarting?)
    ensures FlightInv(s.(tasks := s.tasks[t := Task(kind, key, Running(p))]))
  {
    assert Roles(s.tasks[t := Task(kind, key, Running(p))]) == Roles(s.tasks)[t := Free(key)];
    NeutralKeeps(s.inner, s.flights, Roles(s.tasks), t, Free(key));
  }

  lemma StepKeeps(c: Config, s: State, step: Step)
    requires FlightInv(s) && Enabled(c, s, step)
    ensures FlightInv(Do(c, s, step))
  {
    match step
    case Arrive(t, kind, key, stream) => ArriveKeeps(s, t, kind, key, FirstPhase(kind, stream));
    case Take(t, a) => TakeKeeps(c, s, t, a, Act(c, t, ViewOf(c, s, t), a).value);
    case Evict(_) =>
    case External(_, _) =>
  }
}
