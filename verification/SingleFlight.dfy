/** The guarantees of `Inflight` over every run of the service. */
module SingleFlight {
  import opened Prelude
  import opened Slots
  import opened Service
  import opened Flights

  lemma {:induction false} RunKeeps(c: Config, r: Run, i: nat)
    requires ValidRun(c, r) && i < |r.states|
    ensures FlightInv(r.states[i])
  {
    if i > 0 {
      hide Enabled, Do, Init, FlightInv;
      RunKeeps(c, r, i - 1);
      StepKeeps(c, r.states[i - 1], r.steps[i - 1]);
    }
  }

  /** What the invariant says of one task, and of the entry it belongs to. */
  lemma RoleFacts(s: State, t: Tid, r: Role)
    requires FlightInv(s) && t in s.tasks && r == RoleOf(s.tasks[t])
    ensures RoleOk(s.flights, t, r)
    ensures !r.Free? ==> FlightOk(s.inner, Roles(s.tasks), r.eid, s.flights[r.eid])
  {
    assert Roles(s.tasks)[t] == r;
    assert RoleOk(s.flights, t, r);
  }

  /** A step changes no other task. */
  lemma OthersStay(c: Config, s: State, step: Step, u: Tid)
    requires Enabled(c, s, step) && u in s.tasks && step != Take(u, if step.Take? then step.a else Go)
    ensures u in Do(c, s, step).tasks && Do(c, s, step).tasks[u] == s.tasks[u]
  {
    if step.Take? {
      SpawnIsNew(c, step.t, ViewOf(c, s, step.t), step.a);
    }
  }

  // ----- One leader per key -----

  /** Task `t` holds the guard of entry `e` for `k`, or the release spawned when
      that guard was dropped. */
  predicate Owes(s: State, t: Tid, k: Key, e: Eid) {
    t in s.tasks && s.tasks[t].key == k && Duty(s.tasks[t].status) == Some(e)
  }

  lemma OwesIsLeading(x: Task)
    ensures Duty(x.status).Some? <==> RoleOf(x).Leads? && RoleOf(x).owes
    ensures Duty(x.status).Some? ==> RoleOf(x).eid == Duty(x.status).value && RoleOf(x).key == x.key
  {}

  lemma OwedIsCurrent(s: State, t: Tid, k: Key, e: Eid)
    requires FlightInv(s) && Owes(s, t, k, e)
    ensures SlotOf(s.inner, k) == Some(e) && e in s.flights && s.flights[e].leader == t && s.flights[e].releases == 0
  {
    OwesIsLeading(s.tasks[t]);
    RoleFacts(s, t, RoleOf(s.tasks[t]));
  }

  lemma CurrentIsOwed(s: State, k: Key) returns (t: Tid)
    requires FlightInv(s) && k in s.inner
    ensures Owes(s, t, k, s.inner[k])
  {
    var e := s.inner[k];
    assert SlotOk(s.flights, k, e);
    assert FlightOk(s.inner, Roles(s.tasks), e, s.flights[e]);
    t := s.flights[e].leader;
    OwesIsLeading(s.tasks[t]);
  }

  /** The in-flight map is in bijection with the outstanding leader obligations:
      at most one task leads a key, every mapped key has one, and nothing is left
      in the map when no obligation is. */
  lemma LeadersAndMapAgree(c: Config, r: Run, i: nat)
    requires ValidRun(c, r) && i < |r.states|
    ensures var s := r.states[i];
      && (forall k :: k in s.inner ==> exists t: Tid :: Owes(s, t, k, s.inner[k]))
      && (forall t: Tid, k: Key, e: Eid :: Owes(s, t, k, e) ==> SlotOf(s.inner, k) == Some(e))
      && (forall t: Tid, u: Tid, k: Key, e: Eid, f: Eid :: Owes(s, t, k, e) && Owes(s, u, k, f) ==> t == u && e == f)
      && ((forall t: Tid, k: Key, e: Eid :: !Owes(s, t, k, e)) ==> s.inner == map[])
  {
    RunKeeps(c, r, i);
    var s := r.states[i];
    forall k | k in s.inner ensures exists t: Tid :: Owes(s, t, k, s.inner[k]) {
      var t := CurrentIsOwed(s, k);
    }
    forall t: Tid, k: Key, e: Eid | Owes(s, t, k, e)
      ensures SlotOf(s.inner, k) == Some(e) && e in s.flights && s.flights[e].leader == t
    {
      OwedIsCurrent(s, t, k, e);
    }
    if forall t: Tid, k: Key, e: Eid :: !Owes(s, t, k, e) {
      assert forall k :: k !in s.inner;
    }
  }

  lemma OwedUntilReleased(s: State, e: Eid)
    requires FlightInv(s) && e in s.flights
    ensures var f := s.flights[e]; f.releases <= 1 && (f.releases == 0 <==> Owes(s, f.leader, f.key, e))
  {
    var f := s.flights[e];
    assert FlightOk(s.inner, Roles(s.tasks), e, f);
    OwesIsLeading(s.tasks[f.leader]);
    assert RoleOf(s.tasks[f.leader]) == Leads(f.key, e, f.result, f.releases == 0);
    RoleEntry(s.tasks[f.leader]);
  }

  lemma ReleaseRemoves(c: Config, s: State, t: Tid, a: Action)
    requires FlightInv(s) && Enabled(c, s, Take(t, a)) && IsRelease(s.tasks[t].status, a)
    ensures var s' := Do(c, s, Take(t, a));
      var k, e := s.tasks[t].key, GuardAt(s.tasks[t].status.at).value;
      && Releases(SlotOf(s.inner, k), e) && e in s.flights && s.flights[e].releases == 0
      && s'.inner == s.inner - {k} && s'.flights == s.flights[e := Released(s.flights[e])]
  {
    hide Act, Apply, FlightInv;
    var v := ViewOf(c, s, t);
    var e := Act(c, t, v, a).value;
    ReleaseEffectIs(c, t, v, a, e);
    ViewHasFlight(c, s, t, RoleOf(s.tasks[t]));
    AfterStep(c, s, t, e);
    ReleaseStep(c, s, t, e, GuardAt(s.tasks[t].status.at).value, Written(s.tasks[t].status.at));
    OwesIsLeading(s.tasks[t]);
    OwedIsCurrent(s, t, s.tasks[t].key, GuardAt(s.tasks[t].status.at).value);
  }

  /** Whenever a release runs, the pointer comparison succeeds, the entry had not
      been released before and its key leaves the map; no entry is ever released
      twice, and it is released exactly when its leader owes nothing any more. */
  lemma ReleasedExactlyOnce(c: Config, r: Run, i: nat, t: Tid, a: Action)
    requires ValidRun(c, r) && i < |r.steps| && r.steps[i] == Take(t, a)
    ensures IsRelease(r.states[i].tasks[t].status, a) ==>
      var s, s' := r.states[i], r.states[i + 1];
      var k, e := s.tasks[t].key, GuardAt(s.tasks[t].status.at).value;
      && Releases(SlotOf(s.inner, k), e) && e in s.flights && s.flights[e].releases == 0
      && s'.inner == s.inner - {k} && s'.flights == s.flights[e := Released(s.flights[e])]
    ensures forall e :: e in r.states[i].flights ==>
      var f := r.states[i].flights[e];
      f.releases <= 1 && (f.releases == 0 <==> Owes(r.states[i], f.leader, f.key, e))
  {
    hide Act, Do, FlightInv, Owes;
    RunKeeps(c, r, i);
    var s := r.states[i];
    forall e | e in s.flights
      ensures var f := s.flights[e]; f.releases <= 1 && (f.releases == 0 <==> Owes(s, f.leader, f.key, e))
    {
      OwedUntilReleased(s, e);
    }
    if IsRelease(s.tasks[t].status, a) {
      ReleaseRemoves(c, s, t, a);
    }
  }

  /** The flights of one key are disjoint in time: in no state do two of its
      entries both stand between their acquire and their release. */
  lemma FlightsOfAKeyAreDisjoint(c: Config, r: Run, i: nat, e: Eid, f: Eid)
    requires ValidRun(c, r) && i < |r.states|
    requires e in r.states[i].flights && f in r.states[i].flights
    requires r.states[i].flights[e].key == r.states[i].flights[f].key
    requires r.states[i].flights[e].releases == 0 && r.states[i].flights[f].releases == 0
    ensures e == f
  {
    RunKeeps(c, r, i);
    var s := r.states[i];
    assert FlightOk(s.inner, Roles(s.tasks), e, s.flights[e]);
    assert FlightOk(s.inner, Roles(s.tasks), f, s.flights[f]);
  }

  // ----- Wake-ups -----

  predicate Registered(s: State, t: Tid, e: Eid) {
    t in s.tasks && s.tasks[t].status.Running? && s.tasks[t].status.at.Waiting? && s.tasks[t].status.at.eid == e
  }

  predicate Woken(s: State, t: Tid, e: Eid) {
    e in s.flights && t in s.flights[e].notified
  }

  lemma RegisteredRole(s: State, t: Tid, e: Eid)
    requires FlightInv(s) && Registered(s, t, e)
    ensures e in s.flights && s.flights[e].key == s.tasks[t].key
    ensures ListedOk(s.flights[e], t, s.tasks[t].status.at.early)
  {
    RoleFacts(s, t, Waits(s.tasks[t].key, e, s.tasks[t].status.at.early));
  }

  /** A release wakes exactly the followers that had registered by then, and
      touches no other entry. */
  lemma ReleaseWakesTheRegistered(c: Config, r: Run, i: nat, t: Tid, a: Action)
    requires ValidRun(c, r) && i < |r.steps| && r.steps[i] == Take(t, a)
    requires IsRelease(r.states[i].tasks[t].status, a)
    ensures var s, s' := r.states[i], r.states[i + 1];
      var e := GuardAt(s.tasks[t].status.at).value;
      && (forall u: Tid :: Woken(s', u, e) <==> Registered(s, u, e))
      && (forall u: Tid :: !Woken(s, u, e))
      && (forall f :: f in s.flights && f != e ==> f in s'.flights && s'.flights[f] == s.flights[f])
  {
    hide Act, Do, FlightInv;
    RunKeeps(c, r, i);
    ReleasedExactlyOnce(c, r, i, t, a);
    var s, s' := r.states[i], r.states[i + 1];
    var e := GuardAt(s.tasks[t].status.at).value;
    forall u: Tid ensures (Woken(s', u, e) <==> Registered(s, u, e)) && !Woken(s, u, e) {
      ListsAreTheRegistered(s, u, e);
    }
  }

  /** Until its release, an entry's waiters are the followers registered on it. */
  lemma ListsAreTheRegistered(s: State, u: Tid, e: Eid)
    requires FlightInv(s) && e in s.flights && s.flights[e].releases == 0
    ensures u in s.flights[e].waiters <==> Registered(s, u, e)
    ensures !Woken(s, u, e)
  {
    assert FlightOk(s.inner, Roles(s.tasks), e, s.flights[e]);
    if u in s.flights[e].waiters + s.flights[e].notified {
      assert Roles(s.tasks)[u].Waits? && Roles(s.tasks)[u].eid == e;
      WaitsIsRegistered(s, u, e);
    }
    if Registered(s, u, e) {
      RegisteredRole(s, u, e);
    }
  }

  lemma WaitsIsRegistered(s: State, t: Tid, e: Eid)
    requires t in s.tasks && RoleOf(s.tasks[t]).Waits? && RoleOf(s.tasks[t]).eid == e
    ensures Registered(s, t, e)
  {}

  /** A registered follower is in exactly one of three situations, told apart by
      when it registered: its entry is still in the map and someone owes its
      release; it registered before the release and has been woken; or it
      registered after it. */
  lemma WaitersAreLiveWokenOrLate(c: Config, r: Run, i: nat, t: Tid, e: Eid)
    requires ValidRun(c, r) && i < |r.states| && Registered(r.states[i], t, e)
    ensures var s, early := r.states[i], r.states[i].tasks[t].status.at.early;
      && e in s.flights
      && (!Woken(s, t, e) && early <==> SlotOf(s.inner, s.tasks[t].key) == Some(e))
      && (SlotOf(s.inner, s.tasks[t].key) == Some(e) ==> Owes(s, s.flights[e].leader, s.tasks[t].key, e))
      && (Woken(s, t, e) <==> early && s.flights[e].releases == 1)
      && (!early ==> s.flights[e].releases == 1)
  {
    RunKeeps(c, r, i);
    var s := r.states[i];
    RegisteredRole(s, t, e);
    assert FlightOk(s.inner, Roles(s.tasks), e, s.flights[e]);
    if SlotOf(s.inner, s.tasks[t].key) == Some(e) {
      var u := CurrentIsOwed(s, s.tasks[t].key);
      OwedIsCurrent(s, u, s.tasks[t].key, e);
    }
  }

  /** A follower that has not registered when its entry is released. */
  predicate TooLate(s: State, t: Tid, e: Eid) {
    && e in s.flights && s.flights[e].releases == 1
    && t in s.tasks && s.tasks[t].status.Running?
    && (s.tasks[t].status.at == Registering(e) || s.tasks[t].status.at == Waiting(e, false))
  }

  predicate GaveUp(s: State, t: Tid, e: Eid) {
    && e in s.flights && s.flights[e].releases == 1
    && t in s.tasks && s.tasks[t].status.Cancelled?
    && (s.tasks[t].status.at == Registering(e) || s.tasks[t].status.at == Waiting(e, false))
  }

  /** How one step may change an existing entry. */
  lemma FlightChange(c: Config, t: Tid, v: View, a: Action, e: Effect)
    requires Act(c, t, v, a) == Some(e) && e.flight.Some?
    ensures var (id, g) := e.flight.value;
      || (a.Elect? && id == a.id)
      || (&& v.flight.Some? && EntryOf(v.task.status) == Some(id)
          && g.key == v.flight.value.key && g.leader == v.flight.value.leader
          && (|| Duty(v.task.status) == Some(id)
              || (g.result == v.flight.value.result && g.releases == v.flight.value.releases)))
  {}

  /** What a released entry holds, it holds for good. */
  predicate SameRelease(s: State, s': State, e: Eid) {
    e in s.flights && s.flights[e].releases == 1 ==>
      && e in s'.flights && s'.flights[e].releases == 1
      && s'.flights[e].key == s.flights[e].key && s'.flights[e].leader == s.flights[e].leader
      && s'.flights[e].result == s.flights[e].result
  }

  lemma ReleasedStays(c: Config, s: State, step: Step, e: Eid)
    requires FlightInv(s) && Enabled(c, s, step)
    ensures SameRelease(s, Do(c, s, step), e)
  {
    hide Act, FlightInv;
    if step.Take? && e in s.flights && s.flights[e].releases == 1 {
      var v := ViewOf(c, s, step.t);
      var x := Act(c, step.t, v, step.a).value;
      if x.flight.Some? && x.flight.value.0 == e {
        FlightChange(c, step.t, v, step.a, x);
        if Duty(v.task.status) == Some(e) {
          OwedIsCurrent(s, step.t, v.task.key, e);
        }
      }
    }
  }

  lemma {:induction false} ReleasedForGood(c: Config, r: Run, i: nat, j: nat, e: Eid)
    requires ValidRun(c, r) && i <= j < |r.states|
    ensures SameRelease(r.states[i], r.states[j], e)
  {
    hide Enabled, Do, Init, FlightInv;
    if i < j {
      ReleasedForGood(c, r, i, j - 1, e);
      RunKeeps(c, r, j - 1);
      ReleasedStays(c, r.states[j - 1], r.steps[j - 1], e);
    }
  }

  /** A step of `t` itself sets its status and nothing else of its task. */
  lemma OwnStep(c: Config, s: State, t: Tid, a: Action)
    requires Enabled(c, s, Take(t, a))
    ensures var e := Act(c, t, ViewOf(c, s, t), a);
      && e.Some? && t in Do(c, s, Take(t, a)).tasks
      && Do(c, s, Take(t, a)).tasks[t] == s.tasks[t].(status := e.value.status)
  {}

  lemma LateStep(c: Config, s: State, step: Step, t: Tid, e: Eid)
    requires FlightInv(s) && Enabled(c, s, step)
    requires TooLate(s, t, e) || GaveUp(s, t, e)
    ensures TooLate(Do(c, s, step), t, e) || GaveUp(Do(c, s, step), t, e)
  {
    hide Act, Do, FlightInv, Enabled;
    ReleasedStays(c, s, step, e);
    if step.Take? && step.t == t {
      RoleFacts(s, t, RoleOf(s.tasks[t]));
      LateAct(c, t, ViewOf(c, s, t), step.a, e);
      OwnStep(c, s, t, step.a);
    } else {
      OthersStay(c, s, step, t);
    }
  }

  lemma LateAct(c: Config, t: Tid, v: View, a: Action, e: Eid)
    requires v.task.status == Running(Registering(e)) || v.task.status == Running(Waiting(e, false)) || v.task.status.Cancelled?
    requires v.flight.Some? && v.flight.value.releases == 1
    requires v.task.status == Running(Waiting(e, false)) ==> t !in v.flight.value.notified
    ensures Act(c, t, v, a).Some? ==>
      var x := Act(c, t, v, a).value.status;
      || x == Running(Waiting(e, false))
      || x == Cancelled(Registering(e)) || x == Cancelled(Waiting(e, false))
  {}

  /** A follower that registers after the release is never woken: in every
      continuation of the run it is still waiting, or was cancelled there. */
  lemma {:induction false} LateFollowersAreNeverWoken(c: Config, r: Run, i: nat, j: nat, t: Tid, e: Eid)
    requires ValidRun(c, r) && i <= j < |r.states|
    requires TooLate(r.states[i], t, e)
    ensures TooLate(r.states[j], t, e) || GaveUp(r.states[j], t, e)
    ensures !Woken(r.states[j], t, e)
  {
    hide Enabled, Do, Init, FlightInv, TooLate, GaveUp;
    if i < j {
      LateFollowersAreNeverWoken(c, r, i, j - 1, t, e);
      RunKeeps(c, r, j - 1);
      LateStep(c, r.states[j - 1], r.steps[j - 1], t, e);
    }
    RunKeeps(c, r, j);
    NotWoken(r.states[j], t, e);
  }

  lemma NotWoken(s: State, t: Tid, e: Eid)
    requires FlightInv(s) && (TooLate(s, t, e) || GaveUp(s, t, e))
    ensures !Woken(s, t, e)
  {
    var r := RoleOf(s.tasks[t]);
    RoleFacts(s, t, r);
    if !r.Waits? {
      assert t !in s.flights[e].waiters + s.flights[e].notified;
    }
  }

  // ----- Agreement -----

  /** What a follower of `e` was told when it was woken. */
  function ToldBy(x: Task, e: Eid): Option<Option<Fetched>> {
    if RoleOf(x).Linked? && RoleOf(x).eid == e then RoleOf(x).told else None
  }

  lemma ToldIsTheResult(s: State, t: Tid, e: Eid)
    requires FlightInv(s) && t in s.tasks && ToldBy(s.tasks[t], e).Some?
    ensures e in s.flights && s.flights[e].releases == 1
    ensures s.flights[e].result == ToldBy(s.tasks[t], e).value
    ensures s.flights[e].leader in s.tasks
    ensures RoleOf(s.tasks[s.flights[e].leader]) == Leads(s.tasks[t].key, e, ToldBy(s.tasks[t], e).value, false)
  {
    hide FlightInv;
    RoleFacts(s, t, RoleOf(s.tasks[t]));
  }

  /** All followers of one entry are told the same, at any two moments of a run:
      what its leader wrote before the release, or None if it was cancelled
      before writing. The result is written at most once. */
  lemma FollowersAgree(c: Config, r: Run, i: nat, j: nat, t: Tid, u: Tid, e: Eid)
    requires ValidRun(c, r) && i <= j < |r.states|
    requires t in r.states[i].tasks && ToldBy(r.states[i].tasks[t], e).Some?
    requires u in r.states[j].tasks && ToldBy(r.states[j].tasks[u], e).Some?
    ensures ToldBy(r.states[i].tasks[t], e) == ToldBy(r.states[j].tasks[u], e)
    ensures e in r.states[j].flights && r.states[j].flights[e].leader in r.states[j].tasks
    ensures r.states[j].flights[e].writes <= 1
    ensures var told := ToldBy(r.states[i].tasks[t], e).value;
      var leader := r.states[j].tasks[r.states[j].flights[e].leader].status;
      match told
      case Some(result) => leader == Finished(Led(e, result)) || leader == Cancelled(Releasing(e, result))
      case None => leader.Cancelled? && GuardAt(leader.at) == Some(e) && !leader.at.Releasing?
  {
    RunKeeps(c, r, i);
    RunKeeps(c, r, j);
    ToldIsTheResult(r.states[i], t, e);
    ToldIsTheResult(r.states[j], u, e);
    ReleasedForGood(c, r, i, j, e);
    LeaderStatus(r.states[j].tasks[r.states[j].flights[e].leader]);
    assert FlightOk(r.states[j].inner, Roles(r.states[j].tasks), e, r.states[j].flights[e]);
  }

  lemma LeaderStatus(x: Task)
    requires RoleOf(x).Leads? && !RoleOf(x).owes
    ensures var e := RoleOf(x).eid;
      match RoleOf(x).written
      case Some(result) => x.status == Finished(Led(e, result)) || x.status == Cancelled(Releasing(e, result))
      case None => x.status.Cancelled? && GuardAt(x.status.at) == Some(e) && !x.status.at.Releasing?
  {}
}
