/** How often the store is asked: what coalescing and caching save, over every run. */
module Bounds {
  import opened Prelude
  import opened Uploads
  import opened Service
  import opened Flights
  import opened SingleFlight
  import opened Tallies
  import opened Ledger

  /** Three bounds of one shape. Store gets are paid for by leader permits and by
      followers woken with None; store gets and leader permits are each paid for
      by lookups that missed. */
  datatype Flow = GetsByPermit | GetsByMiss | PermitsByMiss

  function Spent(f: Flow, h: History): multiset<Key> {
    if f.PermitsByMiss? then h.permits else h.gets
  }

  function Granted(f: Flow, h: History): multiset<Key> {
    if f.GetsByPermit? then h.permits + h.nones else h.missed
  }

  /** How much a task may still spend without being granted more. */
  predicate MaySpend(f: Flow, x: Task) {
    x.status.Running? &&
    match f
    case GetsByPermit => x.status.at.Fetching?
    case GetsByMiss => BeforeGet(x.kind, x.status.at)
    case PermitsByMiss => BeforePermit(x.kind, x.status.at)
  }

  /** Past a lookup that missed, and before the store get it may lead to. */
  predicate BeforeGet(k: Kind, p: Phase) {
    BeforePermit(k, p) || p.Fetching? || p.Registering? || p.Waiting?
  }

  predicate BeforePermit(k: Kind, p: Phase) {
    p.Acquiring? || (p.Heading? && k == Head(true))
  }

  predicate MaySpendOn(f: Flow, k: Key, x: Task) {
    x.key == k && MaySpend(f, x)
  }

  function Reserve(f: Flow, k: Key): Task -> nat {
    (x: Task) => One(MaySpendOn(f, k, x))
  }

  predicate Spends(f: Flow, e: Emit) {
    if f.PermitsByMiss? then e.permit else e.get
  }

  function Grants(f: Flow, e: Emit): nat {
    if f.GetsByPermit? then One(e.permit) + One(e.none) else One(e.miss)
  }

  predicate Pays(f: Flow, v: View, e: Effect) {
    One(Spends(f, e.emit)) + One(MaySpend(f, v.task.(status := e.status)))
      + (if e.spawn.Some? then One(MaySpend(f, Child(v.task.key))) else 0)
    <= One(MaySpend(f, v.task)) + Grants(f, e.emit)
  }

  lemma FetchPays(c: Config, t: Tid, v: View, a: Action, f: Flow)
    requires v.task.status.Running?
    requires var p := v.task.status.at; Touches(p) || FetchPhase(p)
    ensures var e := ActRunning(c, t, v, v.task.status.at, a); e.Some? ==> Pays(f, v, e.value)
  {}

  lemma OtherPays(c: Config, t: Tid, v: View, a: Action, f: Flow)
    requires v.task.status.Running? && Typed(v.task)
    requires var p := v.task.status.at; !(Touches(p) || FetchPhase(p))
    ensures var e := ActRunning(c, t, v, v.task.status.at, a); e.Some? ==> Pays(f, v, e.value)
  {}

  lemma ActPays(c: Config, t: Tid, v: View, a: Action, f: Flow)
    requires Typed(v.task)
    ensures var e := Act(c, t, v, a); e.Some? ==> Pays(f, v, e.value)
  {
    hide ActRunning;
    if v.task.status.Running? && !a.Cancel? {
      var p := v.task.status.at;
      if Touches(p) || FetchPhase(p) {
        FetchPays(c, t, v, a, f);
      } else {
        OtherPays(c, t, v, a, f);
      }
    }
  }

  ghost function Reserved(f: Flow, k: Key, s: State): nat {
    Sum(s.tasks, Reserve(f, k))
  }

  /** From `s` to `s'`, what was spent and may still be is covered by what might
      already be spent at `s` and what was granted since. */
  ghost predicate Covers(f: Flow, k: Key, s: State, s': State) {
    Spent(f, s'.history)[k] + Reserved(f, k, s') + Granted(f, s.history)[k]
      <= Spent(f, s.history)[k] + Reserved(f, k, s) + Granted(f, s'.history)[k]
  }

  lemma TakeCovers(c: Config, s: State, t: Tid, e: Effect, f: Flow, k: Key)
    requires t in s.tasks && (e.spawn.Some? ==> e.spawn.value !in s.tasks)
    requires Pays(f, ViewOf(c, s, t), e)
    ensures Covers(f, k, s, Apply(c, s, t, e))
  {
    var x := s.tasks[t];
    SumAfter(c, s, t, e, Reserve(f, k));
    RecordAfter(f, s.history, x.key, e.emit, k);
  }

  lemma RecordAfter(f: Flow, h: History, x: Key, e: Emit, k: Key)
    ensures Spent(f, Record(h, x, e))[k] == Spent(f, h)[k] + One(Spends(f, e) && x == k)
    ensures Granted(f, Record(h, x, e))[k] == Granted(f, h)[k] + if x == k then Grants(f, e) else 0
  {}

  lemma StepCovers(c: Config, s: State, step: Step, f: Flow, k: Key)
    requires LedgerInv(s) && Enabled(c, s, step)
    ensures Covers(f, k, s, Do(c, s, step))
  {
    hide Act, Apply;
    match step
    case Arrive(t, kind, key, stream) =>
      var x := Task(kind, key, Running(FirstPhase(kind, stream)));
      SumAdd(s.tasks, t, x, Reserve(f, k));
      assert !MaySpend(f, x);
    case Take(t, a) =>
      assert Typed(s.tasks[t]);
      SpawnFresh(c, s, t, a);
      ActPays(c, t, ViewOf(c, s, t), a, f);
      TakeCovers(c, s, t, Act(c, t, ViewOf(c, s, t), a).value, f, k);
    case Evict(_) =>
    case External(_, _) =>
  }

  lemma {:induction false} RunCovers(c: Config, r: Run, i: nat, j: nat, f: Flow, k: Key)
    requires ValidRun(c, r) && i <= j < |r.states|
    ensures Covers(f, k, r.states[i], r.states[j])
  {
    hide Enabled, Do, Init, LedgerInv, Reserved, Spent, Granted;
    if i < j {
      RunCovers(c, r, i, j - 1, f, k);
      RunBalances(c, r, j - 1);
      StepCovers(c, r.states[j - 1], r.steps[j - 1], f, k);
    }
  }

  lemma NothingYet(c: Config, s: State, f: Flow, k: Key)
    requires Init(c, s)
    ensures Spent(f, s.history)[k] == Granted(f, s.history)[k] == Reserved(f, k, s) == 0
  {}

  /** In every run, the store gets called for a key are at most the leader permits
      granted for it plus the followers woken with None; and both the gets and the
      permits are at most the lookups of that key that missed. */
  lemma GetsAreBounded(c: Config, r: Run, i: nat, k: Key)
    requires ValidRun(c, r) && i < |r.states|
    ensures var h := r.states[i].history;
      && h.gets[k] <= h.permits[k] + h.nones[k]
      && h.gets[k] <= h.missed[k]
      && h.permits[k] <= h.missed[k]
  {
    forall f: Flow ensures Spent(f, r.states[i].history)[k] <= Granted(f, r.states[i].history)[k] {
      RunCovers(c, r, 0, i, f, k);
      NothingYet(c, r.states[0], f, k);
    }
    assert Spent(GetsByPermit, r.states[i].history)[k] <= Granted(GetsByPermit, r.states[i].history)[k];
    assert Spent(GetsByMiss, r.states[i].history)[k] <= Granted(GetsByMiss, r.states[i].history)[k];
    assert Spent(PermitsByMiss, r.states[i].history)[k] <= Granted(PermitsByMiss, r.states[i].history)[k];
  }

  // ----- While a key stays cached -----

  /** A lookup of `k` misses although `k` is cached. */
  predicate SpuriousMiss(s: State, step: Step, k: Key) {
    step.Take? && step.a.Miss? && step.t in s.tasks && s.tasks[step.t].key == k && k in s.cache
  }

  /** From state `i` on, `k` is not evicted and no lookup of it misses while it is
      cached. */
  predicate Steady(r: Run, k: Key, i: nat) {
    |r.states| == |r.steps| + 1 &&
    forall j :: i <= j < |r.steps| ==> r.steps[j] != Evict(k) && !SpuriousMiss(r.states[j], r.steps[j], k)
  }

  lemma CacheOnlyGrows(c: Config, t: Tid, v: View, a: Action)
    ensures var e := Act(c, t, v, a);
      e.Some? ==> (v.cached.Some? ==> e.value.cached.Some?) && (e.value.emit.miss ==> a.Miss?)
  {
    hide Feed, Admitted, ValidPath, FetchedEntry, Start;
  }

  lemma CachedStep(c: Config, s: State, step: Step, k: Key)
    requires Enabled(c, s, step) && k in s.cache && step != Evict(k) && !SpuriousMiss(s, step, k)
    ensures k in Do(c, s, step).cache && Do(c, s, step).history.missed[k] == s.history.missed[k]
  {
    hide Act;
    if step.Take? {
      CacheOnlyGrows(c, step.t, ViewOf(c, s, step.t), step.a);
    }
  }

  lemma {:induction false} CachedStays(c: Config, r: Run, i: nat, j: nat, k: Key)
    requires ValidRun(c, r) && i <= j < |r.states| && Steady(r, k, i) && k in r.states[i].cache
    ensures k in r.states[j].cache && r.states[j].history.missed[k] == r.states[i].history.missed[k]
  {
    if i < j {
      hide Enabled, Do;
      CachedStays(c, r, i, j - 1, k);
      CachedStep(c, r.states[j - 1], r.steps[j - 1], k);
    }
  }

  /** Once a key is cached, and as long as it is neither evicted nor missed
      spuriously, it is led and fetched at most once more for each task already past
      a missed lookup; so over the whole run its store gets are at most the lookups
      that missed before it was cached. */
  lemma CachedKeysAreNotFetchedAgain(c: Config, r: Run, i: nat, j: nat, k: Key)
    requires ValidRun(c, r) && i <= j < |r.states|
    requires Steady(r, k, i) && k in r.states[i].cache
    ensures var h, h' := r.states[i].history, r.states[j].history;
      && h'.gets[k] - h.gets[k] <= Reserved(GetsByMiss, k, r.states[i])
      && h'.permits[k] - h.permits[k] <= Reserved(PermitsByMiss, k, r.states[i])
      && h'.gets[k] <= h.missed[k]
  {
    hide Act, Enabled, Do;
    CachedStays(c, r, i, j, k);
    RunCovers(c, r, i, j, GetsByMiss, k);
    RunCovers(c, r, i, j, PermitsByMiss, k);
    GetsAreBounded(c, r, j, k);
  }

  /** At state `i` the task was already past a missed lookup of `k`, or it is the
      prefetch that such a task has spawned by state `m`. */
  ghost predicate Entitled(f: Flow, k: Key, r: Run, i: nat, m: nat, t: Tid)
    requires i < |r.states|
  {
    || (t in r.states[i].tasks && MaySpendOn(f, k, r.states[i].tasks[t]))
    || exists n: nat, p: Tid :: SpawnedBy(f, k, r, i, n, m, p, t)
  }

  predicate SpawnedBy(f: Flow, k: Key, r: Run, i: nat, n: nat, m: nat, p: Tid, t: Tid)
    requires i < |r.states|
  {
    && i <= n < m && n < |r.steps| && r.steps[n] == Take(p, Spawn(t))
    && p in r.states[i].tasks && MaySpendOn(f, k, r.states[i].tasks[p])
  }

  lemma SpawnsPrefetch(c: Config, t: Tid, v: View, a: Action)
    ensures var e := Act(c, t, v, a); e.Some? && e.value.spawn.Some? ==> v.task.kind == Head(true) && a == Spawn(e.value.spawn.value)
  {}

  /** While `k` is cached, a step of one of its tasks neither misses nor is paid for
      by a miss. */
  lemma SpendsItsOwn(c: Config, s: State, t: Tid, a: Action, f: Flow, k: Key)
    requires LedgerInv(s) && Enabled(c, s, Take(t, a)) && s.tasks[t].key == k && !f.GetsByPermit?
    requires k in s.cache && !SpuriousMiss(s, Take(t, a), k)
    ensures var x, e := s.tasks[t], Act(c, t, ViewOf(c, s, t), a).value;
      && (Spends(f, e.emit) || MaySpend(f, x.(status := e.status)) || e.spawn.Some? ==> MaySpend(f, x))
      && (e.spawn.Some? ==> x.kind == Head(true) && a == Spawn(e.spawn.value))
  {
    hide Act;
    var v := ViewOf(c, s, t);
    assert Typed(s.tasks[t]);
    ActPays(c, t, v, a, f);
    CacheOnlyGrows(c, t, v, a);
    SpawnsPrefetch(c, t, v, a);
  }

  /** Who may spend on a cached key after a step could before it, or is the prefetch
      just spawned by one who could. */
  lemma MaySpendStep(c: Config, s: State, step: Step, f: Flow, k: Key, u: Tid)
    requires LedgerInv(s) && Enabled(c, s, step) && !f.GetsByPermit?
    requires k in s.cache && !SpuriousMiss(s, step, k)
    requires u in Do(c, s, step).tasks && MaySpendOn(f, k, Do(c, s, step).tasks[u])
    ensures || (u in s.tasks && MaySpendOn(f, k, s.tasks[u]) && Do(c, s, step).tasks[u].kind == s.tasks[u].kind)
            || (&& step.Take? && step.a == Spawn(u) && Do(c, s, step).tasks[u].kind.Prefetch?
                && step.t in s.tasks && MaySpendOn(f, k, s.tasks[step.t]) && s.tasks[step.t].kind.Head?)
  {
    hide Act, MaySpend, LedgerInv;
    match step
    case Take(t, a) =>
      var e := Act(c, t, ViewOf(c, s, t), a).value;
      SpawnFresh(c, s, t, a);
      if s.tasks[t].key == k {
        SpendsItsOwn(c, s, t, a, f, k);
      }
    case Arrive(t, kind, key, stream) => NotYet(f, Task(kind, key, Running(FirstPhase(kind, stream))));
    case _ =>
  }

  lemma NotYet(f: Flow, x: Task)
    requires x.status.Running? && (x.status.at.Lookup? || x.status.at.PutStarting?)
    ensures !MaySpend(f, x)
  {}

  lemma EntitledNow(f: Flow, k: Key, r: Run, i: nat, t: Tid)
    requires i < |r.states| && t in r.states[i].tasks && MaySpendOn(f, k, r.states[i].tasks[t])
    ensures Entitled(f, k, r, i, i, t)
  {}

  lemma EntitledLater(f: Flow, k: Key, r: Run, i: nat, m: nat, t: Tid)
    requires i < m && i < |r.states| && Entitled(f, k, r, i, m - 1, t)
    ensures Entitled(f, k, r, i, m, t)
  {
    if !(t in r.states[i].tasks && MaySpendOn(f, k, r.states[i].tasks[t])) {
      var n: nat, p: Tid :| SpawnedBy(f, k, r, i, n, m - 1, p, t);
      assert SpawnedBy(f, k, r, i, n, m, p, t);
    }
  }

  lemma SpawnEntitles(f: Flow, k: Key, r: Run, i: nat, m: nat, t: Tid)
    requires i < m <= |r.steps| && i < |r.states| && r.steps[m - 1].Take? && r.steps[m - 1].a == Spawn(t)
    requires var p := r.steps[m - 1].t; p in r.states[i].tasks && MaySpendOn(f, k, r.states[i].tasks[p])
    ensures Entitled(f, k, r, i, m, t)
  {
    assert SpawnedBy(f, k, r, i, m - 1, m, r.steps[m - 1].t, t);
  }

  lemma {:induction false} StaysEntitled(c: Config, r: Run, i: nat, m: nat, f: Flow, k: Key, t: Tid)
    requires ValidRun(c, r) && i <= m < |r.states| && Steady(r, k, i) && k in r.states[i].cache && !f.GetsByPermit?
    requires t in r.states[m].tasks && MaySpendOn(f, k, r.states[m].tasks[t])
    ensures Entitled(f, k, r, i, m, t)
    ensures (t in r.states[i].tasks && MaySpendOn(f, k, r.states[i].tasks[t])) || r.states[m].tasks[t].kind.Prefetch?
  {
    hide Enabled, Do, Init, MaySpendOn, LedgerInv, Entitled, SpuriousMiss;
    if i == m {
      EntitledNow(f, k, r, i, t);
    } else {
      var s, step := r.states[m - 1], r.steps[m - 1];
      CachedStays(c, r, i, m - 1, k);
      RunBalances(c, r, m - 1);
      MaySpendStep(c, s, step, f, k, t);
      hide ValidRun, Steady;
      if t in s.tasks && MaySpendOn(f, k, s.tasks[t]) && r.states[m].tasks[t].kind == s.tasks[t].kind {
        StaysEntitled(c, r, i, m - 1, f, k, t);
        EntitledLater(f, k, r, i, m, t);
      } else {
        StaysEntitled(c, r, i, m - 1, f, k, step.t);
        SpawnEntitles(f, k, r, i, m, t);
      }
    }
  }

  /** Once a key is cached, and as long as it is neither evicted nor missed
      spuriously, whoever still leads it or fetches it is a task whose lookup had
      missed before, or the prefetch such a task spawned. */
  lemma OnlyEarlierMissesFetch(c: Config, r: Run, i: nat, j: nat, k: Key)
    requires ValidRun(c, r) && i <= j < |r.steps| && Steady(r, k, i) && k in r.states[i].cache
    ensures r.states[j + 1].history.gets[k] > r.states[j].history.gets[k] ==>
      r.steps[j].Take? && Entitled(GetsByMiss, k, r, i, j, r.steps[j].t)
    ensures r.states[j + 1].history.permits[k] > r.states[j].history.permits[k] ==>
      r.steps[j].Take? && Entitled(PermitsByMiss, k, r, i, j, r.steps[j].t)
  {
    hide Act, Do, Enabled, MaySpend, LedgerInv, Spends;
    CachedStays(c, r, i, j, k);
    RunBalances(c, r, j);
    forall f: Flow | !f.GetsByPermit? && Spent(f, r.states[j + 1].history)[k] > Spent(f, r.states[j].history)[k]
      ensures r.steps[j].Take? && Entitled(f, k, r, i, j, r.steps[j].t)
    {
      SpenderMaySpend(c, r.states[j], r.steps[j], f, k);
      StaysEntitled(c, r, i, j, f, k, r.steps[j].t);
    }
    assert Spent(GetsByMiss, r.states[j].history) == r.states[j].history.gets;
    assert Spent(PermitsByMiss, r.states[j].history) == r.states[j].history.permits;
  }

  lemma SpenderMaySpend(c: Config, s: State, step: Step, f: Flow, k: Key)
    requires LedgerInv(s) && Enabled(c, s, step) && !f.GetsByPermit?
    requires k in s.cache && !SpuriousMiss(s, step, k)
    requires Spent(f, Do(c, s, step).history)[k] > Spent(f, s.history)[k]
    ensures step.Take? && step.t in s.tasks && MaySpendOn(f, k, s.tasks[step.t])
  {
    hide Act, MaySpend, LedgerInv, Spends, Record;
    if step.Take? {
      var e := Act(c, step.t, ViewOf(c, s, step.t), step.a).value;
      RecordAfter(f, s.history, s.tasks[step.t].key, e.emit, k);
      SpendsItsOwn(c, s, step.t, step.a, f, k);
    }
  }

  // ----- Without cancellation -----

  predicate Uncancelled(r: Run) {
    forall i :: 0 <= i < |r.steps| ==> !(r.steps[i].Take? && r.steps[i].a.Cancel?)
  }

  predicate Alive(x: Task) {
    (x.status.Running? && !UnguardedAt(x.status.at))
    || (x.status.Finished? && !x.status.outcome.Fallback?)
  }

  lemma WakeStaysAlive(c: Config, t: Tid, v: View, a: Action)
    requires Alive(v.task) && v.task.status.Running? && Touches(v.task.status.at)
    requires v.task.status.at.Waiting? && v.flight.Some? && t in v.flight.value.notified ==> v.flight.value.result.Some?
    ensures var e := ActRunning(c, t, v, v.task.status.at, a);
      e.Some? ==> Alive(v.task.(status := e.value.status)) && !e.value.emit.none
  {}

  lemma OtherStaysAlive(c: Config, t: Tid, v: View, a: Action)
    requires Alive(v.task) && v.task.status.Running? && !Touches(v.task.status.at)
    ensures var e := ActRunning(c, t, v, v.task.status.at, a);
      e.Some? ==> Alive(v.task.(status := e.value.status)) && !e.value.emit.none
  {
    hide Admitted, ValidPath, Feed;
  }

  lemma ActStaysAlive(c: Config, t: Tid, v: View, a: Action)
    requires Alive(v.task) && !a.Cancel?
    requires v.task.status.Running? && v.task.status.at.Waiting? && v.flight.Some? && t in v.flight.value.notified ==>
      v.flight.value.result.Some?
    ensures var e := Act(c, t, v, a);
      e.Some? ==> Alive(v.task.(status := e.value.status)) && !e.value.emit.none
  {
    hide ActRunning;
    if v.task.status.Running? {
      if Touches(v.task.status.at) {
        WakeStaysAlive(c, t, v, a);
      } else {
        OtherStaysAlive(c, t, v, a);
      }
    }
  }

  /** Unless tasks were cancelled, whoever is woken finds a result. */
  lemma WokenFindsResult(c: Config, s: State, t: Tid)
    requires FlightInv(s) && t in s.tasks && (forall u :: u in s.tasks ==> Alive(s.tasks[u]))
    requires s.tasks[t].status.Running? && s.tasks[t].status.at.Waiting?
    ensures var f := ViewOf(c, s, t).flight; f.Some? && t in f.value.notified ==> f.value.result.Some?
  {
    RegisteredRole(s, t, s.tasks[t].status.at.eid);
    var e := s.tasks[t].status.at.eid;
    RoleFacts(s, t, RoleOf(s.tasks[t]));
    var leader := s.tasks[s.flights[e].leader];
    if t in s.flights[e].notified {
      LeaderStatus(leader);
    }
  }

  lemma UncancelledStep(c: Config, s: State, step: Step)
    requires FlightInv(s) && Enabled(c, s, step) && !(step.Take? && step.a.Cancel?)
    requires (forall u :: u in s.tasks ==> Alive(s.tasks[u])) && s.history.nones == multiset{}
    ensures (forall u :: u in Do(c, s, step).tasks ==> Alive(Do(c, s, step).tasks[u]))
    ensures Do(c, s, step).history.nones == multiset{}
  {
    hide Act, FlightInv;
    if step.Take? {
      var x := s.tasks[step.t];
      if x.status.Running? && x.status.at.Waiting? {
        WokenFindsResult(c, s, step.t);
      }
      ActStaysAlive(c, step.t, ViewOf(c, s, step.t), step.a);
    }
  }

  /** Without cancellation no follower ever fetches, and the store gets of a key
      are at most the permits granted for it. */
  lemma {:induction false} FollowersNeverFetch(c: Config, r: Run, i: nat, k: Key)
    requires ValidRun(c, r) && Uncancelled(r) && i < |r.states|
    ensures forall t :: t in r.states[i].tasks ==> Alive(r.states[i].tasks[t])
    ensures r.states[i].history.nones == multiset{}
    ensures r.states[i].history.gets[k] <= r.states[i].history.permits[k]
  {
    hide Enabled, Do;
    if i > 0 {
      FollowersNeverFetch(c, r, i - 1, k);
      RunKeeps(c, r, i - 1);
      UncancelledStep(c, r.states[i - 1], r.steps[i - 1]);
    }
    GetsAreBounded(c, r, i, k);
  }
}
