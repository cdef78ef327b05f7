/** Overwrites: exactly which steps make the cache disagree with the store, what
    requests then read, and what an upload leaves behind. */
module Coherence {
  import opened Prelude
  import opened Uploads
  import opened Service
  import opened Flights
  import opened SingleFlight
  import opened Tallies
  import opened Provenance
  import opened Requests
  import Ledger

  // ----- Bodies under way -----

  /** How far a body's way is followed: until it is in the cache, or until the
      followers of its flight have been told. */
  datatype Window = ToCache | ToRelease

  /** The body a task has taken from the store, or put there, and still brings to
      the cache or to its followers. */
  function Carried(c: Config, w: Window, x: Status): Option<Bytes> {
    match x
    case Running(p) => CarriedAt(c, w, p)
    case Dropping(Releasing(_, r)) => if w.ToRelease? then OkBody(r) else None
    case _ => None
  }

  function CarriedAt(c: Config, w: Window, p: Phase): Option<Bytes> {
    match p
    case Reading(_, b) => if w.ToRelease? || Admitted(c.cap, b) then Some(b) else None
    case Inserting(_, b) => Some(b)
    case Completing(_, r) => if w.ToRelease? then OkBody(r) else None
    case Releasing(_, r) => if w.ToRelease? then OkBody(r) else None
    case Finishing(u, applied) => if applied && (w.ToRelease? || !u.capped) then Some(u.sent) else None
    case Storing(u) => Some(u.sent)
    case _ => None
  }

  /** An upload whose body is committed and about to be inserted. */
  predicate RefreshingAt(p: Phase) {
    (p.Finishing? && p.applied && !p.upload.capped) || p.Storing?
  }

  predicate Refreshing(x: Status) {
    x.Running? && RefreshingAt(x.at)
  }

  predicate Refreshes(x: Task, k: Key) {
    x.key == k && Refreshing(x.status)
  }

  ghost predicate RefreshedByOther(s: State, t: Tid, k: Key) {
    exists u :: u in s.tasks && u != t && Refreshes(s.tasks[u], k)
  }

  ghost predicate Refreshed(s: State, k: Key) {
    exists u :: u in s.tasks && Refreshes(s.tasks[u], k)
  }

  predicate Fresh(c: Config, s: State, k: Key)
    requires k in s.cache
  {
    SlotOf(s.store, c.loc(k)) == Some(s.cache[k].bytes)
  }

  predicate CarriesCurrent(c: Config, w: Window, s: State, t: Tid)
    requires t in s.tasks
  {
    var b := Carried(c, w, s.tasks[t].status);
    b.Some? ==> SlotOf(s.store, c.loc(s.tasks[t].key)) == b
  }

  ghost predicate KeyCurrent(c: Config, s: State, k: Key) {
    k in s.cache ==> Fresh(c, s, k) || Refreshed(s, k)
  }

  /** Every body under way is the store's, and so is every cached one, except while
      an upload of its key stands between its commit and its insert. */
  ghost predicate Coherent(c: Config, w: Window, s: State) {
    && (forall t :: t in s.tasks ==> CarriesCurrent(c, w, s, t))
    && (forall k :: k in s.cache ==> KeyCurrent(c, s, k))
  }

  // ----- The steps that keep it -----

  /** What a step writes to the store. */
  function StoreWrite(c: Config, s: State, step: Step): Option<(Loc, Option<Bytes>)> {
    match step
    case External(l, body) => Some((l, body))
    case Take(t, Commit) =>
      if t in s.tasks && s.tasks[t].status.Running? && s.tasks[t].status.at.Finishing?
      then Some((c.loc(s.tasks[t].key), Some(s.tasks[t].status.at.upload.sent)))
      else None
    case _ => None
  }

  /** The step is the commit of an upload that will insert its body under `k`. */
  predicate Replaces(s: State, step: Step, k: Key) {
    && step.Take? && step.t in s.tasks && s.tasks[step.t].key == k
    && s.tasks[step.t].status.Running? && s.tasks[step.t].status.at.Finishing?
    && !s.tasks[step.t].status.at.upload.capped
  }

  /** A write to an object meets no other body of that object under way, and no
      cached one, unless that is the same body or about to be replaced. */
  ghost predicate WriteIsClean(c: Config, w: Window, s: State, step: Step, l: Loc, body: Option<Bytes>) {
    && (forall t :: t in s.tasks && c.loc(s.tasks[t].key) == l && Carried(c, w, s.tasks[t].status).Some? ==>
          Carried(c, w, s.tasks[t].status) == body)
    && (forall k :: k in s.cache && c.loc(k) == l ==>
          Some(s.cache[k].bytes) == body || Refreshed(s, k) || (step.Take? && Replaces(s, step, k)))
  }

  /** An upload that ends between its commit and its insert, by an error or by being
      cancelled, leaves no old body behind that nobody else replaces. */
  ghost predicate EndIsClean(c: Config, s: State, t: Tid, a: Action)
    requires t in s.tasks
  {
    Refreshing(s.tasks[t].status) && (a.Fail? || a.Cancel?) ==>
      var k := s.tasks[t].key;
      k in s.cache ==> Fresh(c, s, k) || RefreshedByOther(s, t, k)
  }

  ghost predicate Clean(c: Config, w: Window, s: State, step: Step) {
    && (StoreWrite(c, s, step).Some? ==>
          WriteIsClean(c, w, s, step, StoreWrite(c, s, step).value.0, StoreWrite(c, s, step).value.1))
    && (step.Take? && step.t in s.tasks ==> EndIsClean(c, s, step.t, step.a))
  }

  // ----- One step, on its own view -----

  predicate ViewCarries(c: Config, w: Window, v: View) {
    && (Carried(c, w, v.task.status).Some? ==> v.stored == Carried(c, w, v.task.status))
    && Fits(c.cap, v.task.status)
  }

  predicate CurrentIn(cached: Option<CacheEntry>, stored: Option<Bytes>) {
    cached.Some? && stored == Some(cached.value.bytes)
  }

  /** Any step but a commit leaves the store, carries and inserts what the store
      holds, and stops refreshing only by inserting, or by giving up. */
  predicate EffectCarries(c: Config, w: Window, v: View, a: Action, e: Effect) {
    && e.stored == v.stored
    && (Carried(c, w, e.status).Some? ==> e.stored == Carried(c, w, e.status))
    && (e.cached == v.cached || CurrentIn(e.cached, e.stored))
    && (Refreshing(e.status) ==> Refreshing(v.task.status))
    && (Refreshing(v.task.status) && (a.Fail? || a.Cancel?) ==> e.cached == v.cached && !Refreshing(e.status))
    && (Refreshing(v.task.status) && !(a.Fail? || a.Cancel?) ==> Refreshing(e.status) || CurrentIn(e.cached, e.stored))
  }

  lemma PutEffectCarries(c: Config, w: Window, t: Tid, v: View, a: Action)
    requires ViewCarries(c, w, v) && v.task.status.Running? && PutPhase(v.task.status.at) && !a.Commit? && !a.Cancel?
    ensures var e := ActRunning(c, t, v, v.task.status.at, a); e.Some? ==> EffectCarries(c, w, v, a, e.value)
  {
    hide Feed, ValidPath;
  }

  lemma FetchEffectCarries(c: Config, w: Window, t: Tid, v: View, a: Action)
    requires ViewCarries(c, w, v) && v.task.status.Running? && FetchPhase(v.task.status.at) && !a.Cancel?
    ensures var e := ActRunning(c, t, v, v.task.status.at, a); e.Some? ==> EffectCarries(c, w, v, a, e.value)
  {
    hide Sound;
  }

  lemma OtherEffectCarries(c: Config, w: Window, t: Tid, v: View, a: Action)
    requires ViewCarries(c, w, v) && v.task.status.Running? && !a.Cancel?
    requires !PutPhase(v.task.status.at) && !FetchPhase(v.task.status.at)
    ensures var e := ActRunning(c, t, v, v.task.status.at, a); e.Some? ==> EffectCarries(c, w, v, a, e.value)
  {
    hide Sound, ValidPath;
  }

  lemma ActCarriesBody(c: Config, w: Window, t: Tid, v: View, a: Action)
    requires ViewCarries(c, w, v) && !a.Commit?
    ensures var e := Act(c, t, v, a); e.Some? ==> EffectCarries(c, w, v, a, e.value)
  {
    hide ActRunning, Sound;
    if v.task.status.Running? && !a.Cancel? {
      if PutPhase(v.task.status.at) {
        PutEffectCarries(c, w, t, v, a);
      } else if FetchPhase(v.task.status.at) {
        FetchEffectCarries(c, w, t, v, a);
      } else {
        OtherEffectCarries(c, w, t, v, a);
      }
    }
  }

  lemma CommitEffect(c: Config, t: Tid, v: View)
    ensures var e := Act(c, t, v, Commit); e.Some? ==>
      && v.task.status.Running? && v.task.status.at.Finishing? && !v.task.status.at.applied
      && var u := v.task.status.at.upload;
         e.value.status == Running(Finishing(u, true)) && e.value.stored == Some(u.sent) && e.value.cached == v.cached
         && e.value.spawn.None?
  {}

  // ----- One step, on the whole state -----

  lemma ViewIsCarrying(c: Config, w: Window, s: State, t: Tid)
    requires HeldInv(c, s) && t in s.tasks && CarriesCurrent(c, w, s, t)
    ensures ViewCarries(c, w, ViewOf(c, s, t))
  {
    assert TaskHeld(c, s.held, s.tasks[t]);
  }

  /** The tasks after a step of `t`: its own status, and perhaps a new prefetch. */
  lemma TasksAfter(c: Config, s: State, t: Tid, e: Effect, u: Tid)
    requires t in s.tasks && (e.spawn.Some? ==> e.spawn.value !in s.tasks)
    requires u in Apply(c, s, t, e).tasks
    ensures var x := Apply(c, s, t, e).tasks[u];
      || (u == t && x == s.tasks[t].(status := e.status))
      || (u != t && u in s.tasks && x == s.tasks[u])
      || (u != t && u !in s.tasks && x == Child(s.tasks[t].key))
  {}

  lemma OthersStillRefresh(c: Config, s: State, t: Tid, e: Effect, k: Key)
    requires t in s.tasks && (e.spawn.Some? ==> e.spawn.value !in s.tasks)
    ensures RefreshedByOther(Apply(c, s, t, e), t, k) <==> RefreshedByOther(s, t, k)
  {
    var s' := Apply(c, s, t, e);
    if u :| u in s'.tasks && u != t && Refreshes(s'.tasks[u], k) {
      TasksAfter(c, s, t, e, u);
      assert u in s.tasks && Refreshes(s.tasks[u], k);
    }
    if u :| u in s.tasks && u != t && Refreshes(s.tasks[u], k) {
      assert u in s'.tasks && s'.tasks[u] == s.tasks[u];
    }
  }

  lemma RefreshedSplits(s: State, t: Tid, k: Key)
    requires t in s.tasks
    ensures Refreshed(s, k) <==> RefreshedByOther(s, t, k) || Refreshes(s.tasks[t], k)
  {}

  /** Whether a key is current after a step, from the state before it. */
  lemma KeyAfter(c: Config, s: State, t: Tid, e: Effect, j: Key)
    requires t in s.tasks && (e.spawn.Some? ==> e.spawn.value !in s.tasks)
    ensures var k, l := s.tasks[t].key, c.loc(s.tasks[t].key);
      var cached := if j == k then e.cached else SlotOf(s.cache, j);
      var stored := if c.loc(j) == l then e.stored else SlotOf(s.store, c.loc(j));
      KeyCurrent(c, Apply(c, s, t, e), j) <==>
        (cached.Some? ==> CurrentIn(cached, stored) || RefreshedByOther(s, t, j) || (j == k && Refreshing(e.status)))
  {
    hide RefreshedByOther, Refreshed;
    var s' := Apply(c, s, t, e);
    OthersStillRefresh(c, s, t, e, j);
    RefreshedSplits(s', t, j);
    assert s'.tasks[t] == s.tasks[t].(status := e.status);
  }

  lemma BodiesAfter(c: Config, w: Window, s: State, t: Tid, e: Effect)
    requires t in s.tasks && (e.spawn.Some? ==> e.spawn.value !in s.tasks)
    requires e.stored == SlotOf(s.store, c.loc(s.tasks[t].key))
    requires Carried(c, w, e.status).Some? ==> e.stored == Carried(c, w, e.status)
    requires forall u :: u in s.tasks ==> CarriesCurrent(c, w, s, u)
    ensures forall u :: u in Apply(c, s, t, e).tasks ==> CarriesCurrent(c, w, Apply(c, s, t, e), u)
  {
    var s' := Apply(c, s, t, e);
    SetSlotSame(s.store, c.loc(s.tasks[t].key));
    forall u | u in s'.tasks ensures CarriesCurrent(c, w, s', u) {
      TasksAfter(c, s, t, e, u);
    }
  }

  /** A step that is no commit keeps coherence exactly if it abandons no upload
      whose key still has an old body cached. */
  lemma QuietStep(c: Config, w: Window, s: State, t: Tid, a: Action, e: Effect)
    requires Coherent(c, w, s) && t in s.tasks && (e.spawn.Some? ==> e.spawn.value !in s.tasks)
    requires EffectCarries(c, w, ViewOf(c, s, t), a, e)
    ensures Coherent(c, w, Apply(c, s, t, e)) <==> EndIsClean(c, s, t, a)
  {
    hide RefreshedByOther, Refreshed, CarriesCurrent;
    var s', k := Apply(c, s, t, e), s.tasks[t].key;
    BodiesAfter(c, w, s, t, e);
    forall j ensures KeyCurrent(c, s', j) <==> (j == k ==> EndIsClean(c, s, t, a)) {
      KeyAfter(c, s, t, e, j);
      RefreshedSplits(s, t, j);
      assert KeyCurrent(c, s, j);
    }
    assert KeyCurrent(c, s', k) <==> EndIsClean(c, s, t, a);
  }

  lemma BodiesAfterCommit(c: Config, w: Window, s: State, t: Tid, e: Effect, u: Upload)
    requires t in s.tasks && e.spawn.None? && e.stored == Some(u.sent)
    requires s.tasks[t].status == Running(Finishing(u, false)) && e.status == Running(Finishing(u, true))
    requires forall v :: v in s.tasks ==> CarriesCurrent(c, w, s, v)
    ensures (forall v :: v in Apply(c, s, t, e).tasks ==> CarriesCurrent(c, w, Apply(c, s, t, e), v))
       <==> forall v :: v in s.tasks && c.loc(s.tasks[v].key) == c.loc(s.tasks[t].key) && Carried(c, w, s.tasks[v].status).Some? ==>
              Carried(c, w, s.tasks[v].status) == Some(u.sent)
  {
    var s', l := Apply(c, s, t, e), c.loc(s.tasks[t].key);
    assert Carried(c, w, s.tasks[t].status).None?;
    assert CarriesCurrent(c, w, s', t);
    forall v | v in s.tasks && v != t
      ensures v in s'.tasks
      ensures CarriesCurrent(c, w, s', v) <==>
        (c.loc(s.tasks[v].key) == l && Carried(c, w, s.tasks[v].status).Some? ==> Carried(c, w, s.tasks[v].status) == Some(u.sent))
    {
      assert CarriesCurrent(c, w, s, v);
    }
    assert forall v :: v in s'.tasks ==> v in s.tasks;
  }

  /** A commit keeps coherence exactly if it is clean. */
  lemma CommitStep(c: Config, w: Window, s: State, t: Tid, e: Effect, u: Upload)
    requires Coherent(c, w, s) && t in s.tasks && e.spawn.None?
    requires e.stored == Some(u.sent) && e.cached == SlotOf(s.cache, s.tasks[t].key)
    requires s.tasks[t].status == Running(Finishing(u, false)) && e.status == Running(Finishing(u, true))
    ensures Coherent(c, w, Apply(c, s, t, e))
       <==> WriteIsClean(c, w, s, Take(t, Commit), c.loc(s.tasks[t].key), Some(u.sent))
  {
    hide RefreshedByOther, Refreshed, CarriesCurrent, Carried;
    var s', k := Apply(c, s, t, e), s.tasks[t].key;
    BodiesAfterCommit(c, w, s, t, e, u);
    forall j ensures KeyCurrent(c, s', j) <==>
      (j in s.cache && c.loc(j) == c.loc(k) ==>
         Some(s.cache[j].bytes) == Some(u.sent) || Refreshed(s, j) || Replaces(s, Take(t, Commit), j))
    {
      KeyAfter(c, s, t, e, j);
      RefreshedSplits(s, t, j);
      assert KeyCurrent(c, s, j);
    }
    assert s'.cache.Keys == s.cache.Keys;
  }

  lemma ExternalStep(c: Config, w: Window, s: State, l: Loc, body: Option<Bytes>)
    requires Coherent(c, w, s)
    ensures Coherent(c, w, Do(c, s, External(l, body))) <==> WriteIsClean(c, w, s, External(l, body), l, body)
  {
    hide Carried;
    var s' := Do(c, s, External(l, body));
    forall j ensures Refreshed(s', j) <==> Refreshed(s, j) {}
    forall v | v in s.tasks
      ensures CarriesCurrent(c, w, s', v) <==>
        (c.loc(s.tasks[v].key) == l && Carried(c, w, s.tasks[v].status).Some? ==> Carried(c, w, s.tasks[v].status) == body)
    {
      assert CarriesCurrent(c, w, s, v);
    }
    forall j | j in s.cache
      ensures KeyCurrent(c, s', j) <==> (c.loc(j) == l ==> Some(s.cache[j].bytes) == body || Refreshed(s, j))
    {
      assert KeyCurrent(c, s, j);
    }
  }

  lemma TakeCoherent(c: Config, w: Window, s: State, t: Tid, a: Action)
    requires HeldInv(c, s) && Coherent(c, w, s) && Enabled(c, s, Take(t, a))
    ensures Coherent(c, w, Do(c, s, Take(t, a))) <==> Clean(c, w, s, Take(t, a))
  {
    hide Act, Apply, HeldInv, WriteIsClean, EndIsClean, CarriesCurrent, KeyCurrent;
    var v := ViewOf(c, s, t);
    var e := Act(c, t, v, a).value;
    SpawnFresh(c, s, t, a);
    assert CarriesCurrent(c, w, s, t);
    if a.Commit? {
      CommitEffect(c, t, v);
      CommitStep(c, w, s, t, e, v.task.status.at.upload);
      CommitEndsNothing(c, s, t);
    } else {
      ViewIsCarrying(c, w, s, t);
      ActCarriesBody(c, w, t, v, a);
      QuietStep(c, w, s, t, a, e);
    }
  }

  lemma CommitEndsNothing(c: Config, s: State, t: Tid)
    requires t in s.tasks
    ensures EndIsClean(c, s, t, Commit)
  {}

  lemma RequestCoherent(c: Config, w: Window, s: State, step: Step)
    requires Coherent(c, w, s) && Enabled(c, s, step) && (step.Arrive? || step.Evict?)
    ensures Coherent(c, w, Do(c, s, step))
  {
    var s' := Do(c, s, step);
    forall u | u in s.tasks ensures u in s'.tasks && s'.tasks[u] == s.tasks[u] {}
    forall u | u in s'.tasks ensures CarriesCurrent(c, w, s', u) {
      if u in s.tasks { assert CarriesCurrent(c, w, s, u); }
    }
    forall k | k in s'.cache ensures KeyCurrent(c, s', k) {
      assert KeyCurrent(c, s, k);
      if u :| u in s.tasks && Refreshes(s.tasks[u], k) {
        assert Refreshes(s'.tasks[u], k);
      }
    }
  }

  /** From a coherent state a step leads to a coherent one exactly if it is clean. */
  lemma StepCoherent(c: Config, w: Window, s: State, step: Step)
    requires HeldInv(c, s) && Coherent(c, w, s) && Enabled(c, s, step)
    ensures Coherent(c, w, Do(c, s, step)) <==> Clean(c, w, s, step)
  {
    hide HeldInv, Coherent, WriteIsClean, Do, Enabled;
    match step
    case Take(t, a) => TakeCoherent(c, w, s, t, a);
    case External(l, body) => ExternalStep(c, w, s, l, body);
    case _ => RequestCoherent(c, w, s, step);
  }

  // ----- Over a whole run -----

  ghost predicate StartsFresh(c: Config, r: Run)
    requires |r.states| > 0
  {
    forall k :: k in r.states[0].cache ==> Fresh(c, r.states[0], k)
  }

  /** A run that starts with current cached bodies and takes clean steps only. */
  ghost predicate CleanRun(c: Config, w: Window, r: Run) {
    ValidRun(c, r) && StartsFresh(c, r) && forall i :: 0 <= i < |r.steps| ==> Clean(c, w, r.states[i], r.steps[i])
  }

  lemma StartCoherent(c: Config, w: Window, r: Run)
    requires ValidRun(c, r)
    ensures Coherent(c, w, r.states[0]) <==> StartsFresh(c, r)
  {
    var s := r.states[0];
    assert forall k :: !Refreshed(s, k);
    assert forall k :: k in s.cache ==> (KeyCurrent(c, s, k) <==> Fresh(c, s, k));
  }

  lemma {:induction false} CleanRunCoherent(c: Config, w: Window, r: Run, i: nat)
    requires CleanRun(c, w, r) && i < |r.states|
    ensures Coherent(c, w, r.states[i])
  {
    hide Coherent, Clean, Do, Enabled, Init, StartsFresh;
    if i == 0 {
      StartCoherent(c, w, r);
    } else {
      CleanRunCoherent(c, w, r, i - 1);
      RunHeld(c, r, i - 1);
      StepCoherent(c, w, r.states[i - 1], r.steps[i - 1]);
    }
  }

  /** A run is coherent throughout exactly if it starts so and each of its steps is
      clean, however its requests interleave. */
  lemma RunCoherent(c: Config, w: Window, r: Run)
    requires ValidRun(c, r)
    ensures (forall i :: 0 <= i < |r.states| ==> Coherent(c, w, r.states[i])) <==> CleanRun(c, w, r)
  {
    hide Coherent, Clean, Do, Enabled, Init, StartsFresh;
    StartCoherent(c, w, r);
    if forall i :: 0 <= i < |r.states| ==> Coherent(c, w, r.states[i]) {
      forall i | 0 <= i < |r.steps| ensures Clean(c, w, r.states[i], r.steps[i]) {
        RunHeld(c, r, i);
        StepCoherent(c, w, r.states[i], r.steps[i]);
        assert Coherent(c, w, r.states[i + 1]);
      }
    }
    if CleanRun(c, w, r) {
      forall i | 0 <= i < |r.states| ensures Coherent(c, w, r.states[i]) {
        CleanRunCoherent(c, w, r, i);
      }
    }
  }

  /** Along such a run every cached body is the one the store holds now, except
      while an upload of its key stands between its commit and its insert. */
  lemma CacheMatchesStore(c: Config, r: Run, i: nat, k: Key)
    requires CleanRun(c, ToCache, r) && i < |r.states|
    requires k in r.states[i].cache && !Refreshed(r.states[i], k)
    ensures SlotOf(r.states[i].store, c.loc(k)) == Some(r.states[i].cache[k].bytes)
  {
    hide CleanRun, Refreshed;
    CleanRunCoherent(c, ToCache, r, i);
    assert KeyCurrent(c, r.states[i], k);
  }

  /** Exclusion by object: nobody writes to an object while another task is between
      its get, or its commit, and its insert; a write finds the object cached only
      under the key it will itself replace; and no upload is stopped in between
      while its key is cached. */
  ghost predicate Exclusive(c: Config, s: State, step: Step) {
    && (StoreWrite(c, s, step).Some? ==>
          var l := StoreWrite(c, s, step).value.0;
          && (forall t :: t in s.tasks && c.loc(s.tasks[t].key) == l ==> Carried(c, ToCache, s.tasks[t].status).None?)
          && (forall k :: k in s.cache && c.loc(k) == l ==> Replaces(s, step, k)))
    && (step.Take? && step.t in s.tasks && Refreshing(s.tasks[step.t].status) && (step.a.Fail? || step.a.Cancel?) ==>
          s.tasks[step.t].key !in s.cache)
  }

  /** Exclusion suffices, whatever runs at the same time on other objects, and
      however many requests read the same one: outside the uploads' own windows every
      cached body is current. */
  lemma ExclusionSuffices(c: Config, r: Run)
    requires ValidRun(c, r) && StartsFresh(c, r)
    requires forall i :: 0 <= i < |r.steps| ==> Exclusive(c, r.states[i], r.steps[i])
    ensures CleanRun(c, ToCache, r)
    ensures forall i, k :: 0 <= i < |r.states| && k in r.states[i].cache && !Refreshed(r.states[i], k) ==>
      Fresh(c, r.states[i], k)
  {
    hide ValidRun, StartsFresh, Carried;
    assert |r.states| == |r.steps| + 1 by { LengthsAgree(c, r); }
    forall i | 0 <= i < |r.steps| ensures Clean(c, ToCache, r.states[i], r.steps[i]) {
      assert Exclusive(c, r.states[i], r.steps[i]);
    }
    hide Clean, CleanRun, Refreshed, Exclusive;
    forall i: nat, k | i < |r.states| && k in r.states[i].cache && !Refreshed(r.states[i], k)
      ensures Fresh(c, r.states[i], k)
    {
      CacheMatchesStore(c, r, i, k);
    }
  }

  lemma LengthsAgree(c: Config, r: Run)
    requires ValidRun(c, r)
    ensures |r.states| == |r.steps| + 1
  {}

  // ----- What requests read -----

  /** The object held `b` at some moment after state `h` and up to state `j`. */
  ghost predicate Seen(r: Run, h: nat, j: nat, l: Loc, b: Bytes) {
    exists m: nat :: h < m <= j && StoredAt(r, m, l, b)
  }

  /** The body an unfinished request is on its way to be answered with. */
  function Obtained(s: State, x: Task): Option<Bytes> {
    if !x.status.Running? then None else
    match x.status.at
    case Reading(_, b) => Some(b)
    case Inserting(_, b) => Some(b)
    case Completing(_, r) => OkBody(r)
    case Releasing(_, r) => OkBody(r)
    case Relooking(_, entry) => Some(entry.bytes)
    case Registering(e) => ResultOf(s, e)
    case Waiting(e, _) => ResultOf(s, e)
    case _ => None
  }

  function ResultOf(s: State, e: Eid): Option<Bytes> {
    if e in s.flights && s.flights[e].result.Some? then OkBody(s.flights[e].result.value) else None
  }

  /** The result of an entry that is still in the map is its leader's, on its way. */
  lemma OpenResultIsCurrent(c: Config, s: State, k: Key)
    requires FlightInv(s) && Coherent(c, ToRelease, s) && k in s.inner
    ensures ResultOf(s, s.inner[k]).Some? ==> SlotOf(s.store, c.loc(k)) == ResultOf(s, s.inner[k])
  {
    hide FlightInv, Coherent;
    var e := s.inner[k];
    var t := CurrentIsOwed(s, k);
    LeaderWrote(s, t, k, e);
    if ResultOf(s, e).Some? {
      LeaderCarries(c, s.tasks[t]);
      CarriedIsCurrent(c, ToRelease, s, t);
    }
  }

  lemma CarriedIsCurrent(c: Config, w: Window, s: State, t: Tid)
    requires Coherent(c, w, s) && t in s.tasks && Carried(c, w, s.tasks[t].status).Some?
    ensures SlotOf(s.store, c.loc(s.tasks[t].key)) == Carried(c, w, s.tasks[t].status)
  {
    assert CarriesCurrent(c, w, s, t);
  }

  lemma LeaderWrote(s: State, t: Tid, k: Key, e: Eid)
    requires FlightInv(s) && Owes(s, t, k, e)
    ensures e in s.flights && RoleOf(s.tasks[t]) == Leads(k, e, s.flights[e].result, true)
  {
    hide FlightInv;
    OwedIsCurrent(s, t, k, e);
    OwesIsLeading(s.tasks[t]);
    RoleFacts(s, t, RoleOf(s.tasks[t]));
  }

  lemma LeaderCarries(c: Config, x: Task)
    requires RoleOf(x).Leads? && RoleOf(x).owes && RoleOf(x).written.Some?
    ensures Carried(c, ToRelease, x.status) == OkBody(RoleOf(x).written.value)
  {}

  /** How one step may change the result of an existing entry. */
  lemma ResultChange(c: Config, t: Tid, v: View, a: Action, e: Effect)
    requires Act(c, t, v, a) == Some(e) && e.flight.Some?
    ensures var (id, g) := e.flight.value;
      || (a.Elect? && id == a.id)
      || (&& v.flight.Some? && EntryOf(v.task.status) == Some(id)
          && (|| g.result == v.flight.value.result
              || (&& v.task.status.Running? && v.task.status.at.Completing?
                  && g.result == Some(v.task.status.at.result) && v.flight.value.key == g.key)))
  {}

  /** While a follower waits, only its leader's current body can appear. */
  lemma ResultStep(c: Config, s: State, step: Step, e: Eid, k: Key)
    requires FlightInv(s) && Coherent(c, ToRelease, s) && Enabled(c, s, step)
    requires e in s.flights && s.flights[e].key == k
    ensures var b := ResultOf(Do(c, s, step), e);
      b.Some? ==> b == ResultOf(s, e) || SlotOf(s.store, c.loc(k)) == b
  {
    hide Act, Coherent, FlightInv;
    if step.Take? {
      var v := ViewOf(c, s, step.t);
      var x := Act(c, step.t, v, step.a).value;
      if x.flight.Some? && x.flight.value.0 == e {
        ResultChange(c, step.t, v, step.a, x);
        EntryKey(s, step.t);
        CompletingIsCurrent(c, s, step.t);
      }
    }
  }

  lemma CompletingIsCurrent(c: Config, s: State, t: Tid)
    requires Coherent(c, ToRelease, s) && t in s.tasks
    ensures var x := s.tasks[t].status;
      x.Running? && x.at.Completing? && OkBody(x.at.result).Some? ==>
        SlotOf(s.store, c.loc(s.tasks[t].key)) == OkBody(x.at.result)
  {
    hide Coherent;
    if Carried(c, ToRelease, s.tasks[t].status).Some? {
      CarriedIsCurrent(c, ToRelease, s, t);
    }
  }

  /** A request obtains a body only from the store, from its entry, or by joining an
      entry that has one. */
  predicate Obtains(v: View, e: Effect)
    requires v.task.status.Running?
  {
    e.status.Running? ==>
    match e.status.at
    case Reading(_, b) => v.stored == Some(b)
    case Inserting(_, b) => v.task.status.at.Reading? && v.task.status.at.body == b
    case Completing(_, r) => OkBody(r).Some? ==> Holds(v.task.status.at) == OkBody(r)
    case Releasing(_, r) => v.task.status.at.Completing? && v.task.status.at.result == r
    case Relooking(id, entry) =>
      v.task.status.at.Waiting? && v.task.status.at.eid == id && v.flight.Some? && v.flight.value.result == Some(Ok(entry))
    case Registering(id) => v.current == Some(id) && v.task.status.at.Acquiring?
    case Waiting(id, _) => v.task.status.at == Registering(id)
    case _ => true
  }

  function Holds(p: Phase): Option<Bytes> {
    match p
    case Reading(_, b) => Some(b)
    case Inserting(_, b) => Some(b)
    case _ => None
  }

  lemma ActObtains(c: Config, t: Tid, v: View, a: Action)
    requires v.task.status.Running?
    ensures var e := Act(c, t, v, a); e.Some? ==> Obtains(v, e.value)
  {}

  lemma OwnObtains(c: Config, s: State, t: Tid, a: Action)
    requires FlightInv(s) && Coherent(c, ToRelease, s) && Enabled(c, s, Take(t, a)) && s.tasks[t].status.Running?
    ensures var s' := Do(c, s, Take(t, a));
      && t in s'.tasks
      && var b := Obtained(s', s'.tasks[t]);
         b.Some? ==> b == Obtained(s, s.tasks[t]) || SlotOf(s.store, c.loc(s.tasks[t].key)) == b
  {
    hide Act, Do, FlightInv, Coherent;
    var v := ViewOf(c, s, t);
    OwnStep(c, s, t, a);
    ActObtains(c, t, v, a);
    var x := Act(c, t, v, a).value.status;
    if x.Running? {
      match x.at
      case Registering(e) =>
        OpenResultIsCurrent(c, s, s.tasks[t].key);
        CurrentEntry(s, s.tasks[t].key);
        ResultStep(c, s, Take(t, a), e, s.tasks[t].key);
      case Waiting(e, _) =>
        EntryKey(s, t);
        ResultStep(c, s, Take(t, a), e, s.tasks[t].key);
      case _ =>
    }
  }

  lemma CurrentEntry(s: State, k: Key)
    requires FlightInv(s) && k in s.inner
    ensures s.inner[k] in s.flights && s.flights[s.inner[k]].key == k
  {
    assert SlotOk(s.flights, k, s.inner[k]);
  }

  lemma OtherObtains(c: Config, s: State, step: Step, t: Tid)
    requires FlightInv(s) && Coherent(c, ToRelease, s) && Enabled(c, s, step) && t in s.tasks
    requires step != Take(t, if step.Take? then step.a else Go)
    ensures var s' := Do(c, s, step);
      && t in s'.tasks && s'.tasks[t] == s.tasks[t]
      && var b := Obtained(s', s'.tasks[t]);
         b.Some? ==> b == Obtained(s, s.tasks[t]) || SlotOf(s.store, c.loc(s.tasks[t].key)) == b
  {
    hide Do, FlightInv, Coherent, Enabled;
    OthersStay(c, s, step, t);
    EntryKey(s, t);
    var x := s.tasks[t].status;
    if x.Running? {
      match x.at
      case Registering(e) => ResultStep(c, s, step, e, s.tasks[t].key);
      case Waiting(e, _) => ResultStep(c, s, step, e, s.tasks[t].key);
      case _ =>
    }
  }

  lemma StillRunning(c: Config, t: Tid, v: View, a: Action)
    ensures var e := Act(c, t, v, a); e.Some? && (e.value.status.Running? || e.value.status.Finished?) ==> v.task.status.Running?
  {}

  /** In one step of anybody a request obtains no body but its object's. */
  lemma ObtainedStep(c: Config, s: State, step: Step, t: Tid)
    requires FlightInv(s) && Coherent(c, ToRelease, s) && Enabled(c, s, step) && t in s.tasks
    ensures var s' := Do(c, s, step);
      && t in s'.tasks && s'.tasks[t].key == s.tasks[t].key
      && var b := Obtained(s', s'.tasks[t]);
         b.Some? ==> b == Obtained(s, s.tasks[t]) || SlotOf(s.store, c.loc(s.tasks[t].key)) == b
  {
    hide Do, Act, Enabled, FlightInv, Coherent;
    if step.Take? && step.t == t {
      OwnStep(c, s, t, step.a);
      if s.tasks[t].status.Running? {
        OwnObtains(c, s, t, step.a);
      } else {
        StillRunning(c, t, ViewOf(c, s, t), step.a);
      }
    } else {
      OtherObtains(c, s, step, t);
    }
  }

  /** In step `h` of the run `t` arrives for `key`. */
  predicate Arrives(r: Run, h: nat, t: Tid, key: Key) {
    h < |r.steps| && r.steps[h].Arrive? && r.steps[h].t == t && r.steps[h].key == key
  }

  /** Whatever body an unfinished request has obtained, its object held it since the
      request arrived. */
  lemma {:induction false} ObtainedWasSeen(c: Config, r: Run, h: nat, j: nat, t: Tid, key: Key)
    requires CleanRun(c, ToRelease, r) && Arrives(r, h, t, key) && h < j < |r.states|
    ensures t in r.states[j].tasks && r.states[j].tasks[t].key == key
    ensures var b := Obtained(r.states[j], r.states[j].tasks[t]); b.Some? ==> Seen(r, h, j, c.loc(key), b.value)
  {
    hide Do, Act, Enabled, Init, StartsFresh, Clean, Obtained;
    if h + 1 == j {
      ArrivalObtainsNothing(c, r.states[h], r.steps[h]);
    } else {
      ObtainedWasSeen(c, r, h, j - 1, t, key);
      var s := r.states[j - 1];
      RunKeeps(c, r, j - 1);
      CleanRunCoherent(c, ToRelease, r, j - 1);
      ObtainedStep(c, s, r.steps[j - 1], t);
      var b := Obtained(r.states[j], r.states[j].tasks[t]);
      if b.Some? && SlotOf(s.store, c.loc(key)) == b {
        assert StoredAt(r, j - 1, c.loc(key), b.value);
      }
    }
  }

  lemma ArrivalObtainsNothing(c: Config, s: State, step: Step)
    requires Enabled(c, s, step) && step.Arrive?
    ensures var s' := Do(c, s, step);
      step.t in s'.tasks && s'.tasks[step.t].key == step.key && Obtained(s', s'.tasks[step.t]).None?
  {}

  /** How a request comes to be answered with a body. */
  lemma AnswerAct(c: Config, t: Tid, v: View, a: Action)
    ensures var e := Act(c, t, v, a); e.Some? && e.value.status.Finished? ==>
      && v.task.status.Running?
      && var o := e.value.status.outcome;
         Served(o).Some? ==>
           if o.Hit? || o.Rehit? then v.cached.Some? && Served(o) == Some(v.cached.value.bytes)
           else Answering(v.task.status.at) == Served(o)
  {}

  function Answering(p: Phase): Option<Bytes> {
    match p
    case Reading(_, b) => Some(b)
    case Inserting(_, b) => Some(b)
    case Releasing(_, r) => OkBody(r)
    case Relooking(_, entry) => Some(entry.bytes)
    case _ => None
  }

  /** Every body a request is answered with is one its object held between the
      request's arrival and its answer, whatever runs at the same time; except a
      cached one that an upload of the key is about to replace. */
  lemma ReadsAreCurrent(c: Config, r: Run, h: nat, j: nat, t: Tid, a: Action, key: Key)
    requires CleanRun(c, ToRelease, r) && Arrives(r, h, t, key) && h < j < |r.steps| && r.steps[j] == Take(t, a)
    ensures t in r.states[j + 1].tasks
    ensures var x := r.states[j + 1].tasks[t].status;
      x.Finished? && Served(x.outcome).Some? ==>
        || Seen(r, h, j, c.loc(key), Served(x.outcome).value)
        || ((x.outcome.Hit? || x.outcome.Rehit?) && Refreshed(r.states[j], key))
  {
    hide Do, Act, Init, StartsFresh, Clean, Coherent, Refreshed;
    var s := r.states[j];
    ObtainedWasSeen(c, r, h, j, t, key);
    CleanRunCoherent(c, ToRelease, r, j);
    assert Enabled(c, s, Take(t, a));
    OwnStep(c, s, t, a);
    AnswerAct(c, t, ViewOf(c, s, t), a);
    var x := r.states[j + 1].tasks[t].status;
    if x.Finished? && Served(x.outcome).Some? && (x.outcome.Hit? || x.outcome.Rehit?) && !Refreshed(s, key) {
      HitIsCurrent(c, s, key);
      assert StoredAt(r, j, c.loc(key), Served(x.outcome).value);
    }
  }

  lemma HitIsCurrent(c: Config, s: State, k: Key)
    requires Coherent(c, ToRelease, s) && k in s.cache && !Refreshed(s, k)
    ensures Fresh(c, s, k)
  {
    assert KeyCurrent(c, s, k);
  }

  // ----- Uploads -----

  /** An upload after its commit. */
  predicate Updating(x: Task) {
    x.status.Running? && ((x.status.at.Finishing? && x.status.at.applied) || x.status.at.Storing?)
  }

  lemma UpdateStores(c: Config, t: Tid, v: View, a: Action)
    requires Updating(v.task)
    ensures var e := Act(c, t, v, a); e.Some? ==> e.value.stored == v.stored
  {}

  lemma StoreAfter(c: Config, s: State, t: Tid, a: Action)
    requires Enabled(c, s, Take(t, a))
    ensures SlotOf(Do(c, s, Take(t, a)).store, c.loc(s.tasks[t].key)) == Act(c, t, ViewOf(c, s, t), a).value.stored
  {
    hide Act;
  }

  /** From its commit until after its answer an upload's object holds exactly what it
      received. */
  lemma PutIsStored(c: Config, r: Run, i: nat, t: Tid, a: Action)
    requires CleanRun(c, ToRelease, r) && i < |r.steps| && r.steps[i] == Take(t, a)
    requires t in r.states[i].tasks && Updating(r.states[i].tasks[t])
    ensures var l, sent := c.loc(r.states[i].tasks[t].key), r.states[i].tasks[t].status.at.upload.sent;
      SlotOf(r.states[i].store, l) == Some(sent) && SlotOf(r.states[i + 1].store, l) == Some(sent)
  {
    hide Do, Act, Init, StartsFresh, Clean, Coherent;
    var s := r.states[i];
    CleanRunCoherent(c, ToRelease, r, i);
    CarriedIsCurrent(c, ToRelease, s, t);
    assert Enabled(c, s, Take(t, a));
    StoreAfter(c, s, t, a);
    UpdateStores(c, t, ViewOf(c, s, t), a);
  }

  /** From state `i` to state `j` nobody writes to `l`. */
  predicate Unwritten(r: Run, i: nat, j: nat, l: Loc) {
    forall m :: i <= m <= j && m < |r.states| ==> SlotOf(r.states[m].store, l) == SlotOf(r.states[i].store, l)
  }

  /** A request that arrives after an upload was answered, and is answered before
      the object is written again, reads what the upload was sent: whatever else
      runs, unless another upload of the key is then still to insert. */
  lemma ReadYourWrite(c: Config, r: Run, i: nat, t: Tid, a: Action, h: nat, j: nat, u: Tid, b: Action)
    requires CleanRun(c, ToRelease, r) && i < h < j < |r.steps| && r.steps[i] == Take(t, a) && r.steps[j] == Take(u, b)
    requires t in r.states[i].tasks && Updating(r.states[i].tasks[t])
    requires Arrives(r, h, u, r.states[i].tasks[t].key)
    requires Unwritten(r, i + 1, j, c.loc(r.states[i].tasks[t].key)) && !Refreshed(r.states[j], r.states[i].tasks[t].key)
    ensures u in r.states[j + 1].tasks
    ensures var x := r.states[j + 1].tasks[u].status;
      x.Finished? && Served(x.outcome).Some? ==> Served(x.outcome) == Some(r.states[i].tasks[t].status.at.upload.sent)
  {
    hide Do, Enabled, Init, StartsFresh, Clean, Refreshed;
    var key := r.states[i].tasks[t].key;
    PutIsStored(c, r, i, t, a);
    ReadsAreCurrent(c, r, h, j, u, b, key);
  }

  /** The same, in terms of the body the upload was sent: the answer is the
      concatenation of its chunks. */
  lemma ReadYourBody(c: Config, r: Run, p: nat, i: nat, t: Tid, key: Key, stream: seq<Chunk>, a: Action,
                     h: nat, j: nat, u: Tid, b: Action)
    requires CleanRun(c, ToRelease, r) && PutArrives(r, p, t, key, stream)
    requires p < i < h < j < |r.steps| && r.steps[i] == Take(t, a) && r.steps[j] == Take(u, b)
    requires t in r.states[i].tasks && Updating(r.states[i].tasks[t])
    requires Arrives(r, h, u, key)
    requires Unwritten(r, i + 1, j, c.loc(key)) && !Refreshed(r.states[j], key)
    ensures u in r.states[j + 1].tasks && Intact(stream)
    ensures var x := r.states[j + 1].tasks[u].status;
      x.Finished? && Served(x.outcome).Some? ==> Served(x.outcome) == Some(WholeBody(stream))
  {
    hide Do, Enabled, Init, StartsFresh, Clean, Refreshed, Carries;
    RunCarries(c, r, p, i, t, key, stream);
    PutSendsTheWholeBody(c, r, p, i, t, key, stream);
    ReadYourWrite(c, r, i, t, a, h, j, u, b);
  }

  // ----- What one upload leaves behind -----

  /** Between its arrival and state `j` nobody but the upload changes its object or
      its key's cached entry. */
  predicate Undisturbed(c: Config, r: Run, i: nat, j: nat, t: Tid, key: Key) {
    forall m :: i < m < j && m + 1 < |r.states| && m < |r.steps| && !(r.steps[m].Take? && r.steps[m].t == t) ==>
      && SlotOf(r.states[m + 1].cache, key) == SlotOf(r.states[m].cache, key)
      && SlotOf(r.states[m + 1].store, c.loc(key)) == SlotOf(r.states[m].store, c.loc(key))
  }

  /** The body was kept for the cache. */
  predicate Kept(c: Config, stream: seq<Chunk>)
    requires Intact(stream)
  {
    Admitted(c.cap, WholeBody(stream)) && NoLateChunk(c.cap, Chunks(stream))
  }

  /** How an undisturbed upload leaves its object and its key's slot, `before` being
      what the slot held. */
  predicate LeavesBehind(c: Config, stream: seq<Chunk>, ct: Option<string>, before: Option<CacheEntry>,
                         x: Status, cached: Option<CacheEntry>, stored: Option<Bytes>) {
    match x
    case Running(p) =>
      && cached == before
      && ((p.Finishing? && p.applied) || p.Storing? ==> stored == Some(p.upload.sent))
    case Finished(Uploaded(_)) =>
      && Intact(stream) && stored == Some(WholeBody(stream))
      && cached == if Kept(c, stream) then Some(CacheEntry(WholeBody(stream), ct)) else before
    case _ => true
  }

  lemma FedBody(c: Config, stream: seq<Chunk>)
    requires Intact(stream)
    ensures var u := FeedAll(c.cap, c.max, Chunks(stream));
      u.sent == WholeBody(stream) && (u.capped <==> !Kept(c, stream)) && (!u.capped ==> u.buffer == u.sent)
  {
    FeedAllMeaning(c.cap, c.max, Chunks(stream));
  }

  lemma UploadActs(c: Config, t: Tid, v: View, a: Action)
    requires v.task.status.Running? && PutPhase(v.task.status.at) && v.task.kind.Put?
    ensures var e := Act(c, t, v, a); e.Some? ==>
      var p, x, y := v.task.status.at, e.value.status, e.value;
      && (x.Running? ==> PutPhase(x.at) && y.cached == v.cached)
      && (x.Running? && (x.at.Finishing? || x.at.Storing?) ==>
            if p.Finishing? && p.applied then y.stored == v.stored && x.at.upload == p.upload
            else x.at.Finishing? && (x.at.applied ==> y.stored == Some(x.at.upload.sent)))
      && (x.Finished? && x.outcome.Uploaded? ==>
            && y.stored == v.stored
            && (|| (p.Finishing? && p.applied && p.upload.capped && y.cached == v.cached)
                || (p.Storing? && y.cached == Some(CacheEntry(p.upload.buffer, v.task.kind.contentType)))))
  {
    hide Feed, ValidPath;
  }

  lemma UploadLeaves(c: Config, t: Tid, v: View, a: Action, stream: seq<Chunk>, before: Option<CacheEntry>)
    requires v.task.kind.Put? && Carries(c, stream, v.task.status)
    requires v.task.status.Running? ==> PutPhase(v.task.status.at)
    requires LeavesBehind(c, stream, v.task.kind.contentType, before, v.task.status, v.cached, v.stored)
    ensures var e := Act(c, t, v, a); e.Some? ==>
      LeavesBehind(c, stream, v.task.kind.contentType, before, e.value.status, e.value.cached, e.value.stored)
  {
    hide Act, FeedAll, Kept, SentUpTo;
    if Intact(stream) {
      FedBody(c, stream);
    }
    hide Intact, WholeBody;
    if v.task.status.Running? {
      UploadActs(c, t, v, a);
    } else {
      StillRunning(c, t, v, a);
    }
  }

  lemma SlotsAfter(c: Config, s: State, t: Tid, a: Action)
    requires Enabled(c, s, Take(t, a))
    ensures var e, s' := Act(c, t, ViewOf(c, s, t), a).value, Do(c, s, Take(t, a));
      && SlotOf(s'.cache, s.tasks[t].key) == e.cached && SlotOf(s'.store, c.loc(s.tasks[t].key)) == e.stored
  {
    hide Act;
  }

  lemma ArrivalTouchesNothing(c: Config, s: State, step: Step)
    requires Enabled(c, s, step) && step.Arrive?
    ensures Do(c, s, step).cache == s.cache && Do(c, s, step).store == s.store
    ensures var x := Do(c, s, step).tasks; step.t in x && x[step.t].status == Running(FirstPhase(step.kind, step.stream))
  {}

  lemma PutsKeepToPutPhases(c: Config, r: Run, j: nat, t: Tid)
    requires ValidRun(c, r) && j < |r.states| && t in r.states[j].tasks && r.states[j].tasks[t].kind.Put?
    ensures r.states[j].tasks[t].status.Running? ==> PutPhase(r.states[j].tasks[t].status.at)
  {
    Ledger.RunBalances(c, r, j);
    assert Ledger.Typed(r.states[j].tasks[t]);
  }

  lemma {:induction false} UploadLeavesBehind(c: Config, r: Run, i: nat, j: nat, t: Tid, key: Key, stream: seq<Chunk>)
    requires ValidRun(c, r) && PutArrives(r, i, t, key, stream) && i < j < |r.states| && Undisturbed(c, r, i, j, t, key)
    ensures t in r.states[j].tasks && r.states[j].tasks[t].key == key
    ensures LeavesBehind(c, stream, r.steps[i].kind.contentType, SlotOf(r.states[i].cache, key),
      r.states[j].tasks[t].status, SlotOf(r.states[j].cache, key), SlotOf(r.states[j].store, c.loc(key)))
  {
    hide Act, Do, Enabled, Init, Carries, Intact, Kept;
    RunCarries(c, r, i, j, t, key, stream);
    if i + 1 == j {
      ArrivalTouchesNothing(c, r.states[i], r.steps[i]);
    } else {
      var s, step := r.states[j - 1], r.steps[j - 1];
      UploadLeavesBehind(c, r, i, j - 1, t, key, stream);
      RunCarries(c, r, i, j - 1, t, key, stream);
      PutsKeepToPutPhases(c, r, j - 1, t);
      hide LeavesBehind;
      if step.Take? && step.t == t {
        OwnStep(c, s, t, step.a);
        SlotsAfter(c, s, t, step.a);
        UploadLeaves(c, t, ViewOf(c, s, t), step.a, stream, SlotOf(r.states[i].cache, key));
      } else {
        OthersStay(c, s, step, t);
      }
    }
  }

  /** An upload that is answered with success and was not disturbed leaves its
      key's cached body behind the store exactly when its body was not kept, as
      bodies above the cap and those with a chunk at a full buffer are not, the key
      was cached when it arrived, and the bytes differ. */
  lemma WhenPutLeavesStaleCache(c: Config, r: Run, i: nat, j: nat, t: Tid, key: Key, stream: seq<Chunk>)
    requires ValidRun(c, r) && PutArrives(r, i, t, key, stream) && i < j < |r.states| && Undisturbed(c, r, i, j, t, key)
    requires t in r.states[j].tasks
    requires var x := r.states[j].tasks[t].status; x.Finished? && x.outcome.Uploaded?
    ensures Intact(stream) && SlotOf(r.states[j].store, c.loc(key)) == Some(WholeBody(stream))
    ensures key in r.states[j].cache && !Fresh(c, r.states[j], key)
       <==> key in r.states[i].cache && r.states[i].cache[key].bytes != WholeBody(stream)
            && !(Admitted(c.cap, WholeBody(stream)) && NoLateChunk(c.cap, Chunks(stream)))
  {
    hide ValidRun, Undisturbed, PutArrives, Intact, WholeBody, Chunks, Admitted, NoLateChunk;
    UploadLeavesBehind(c, r, i, j, t, key, stream);
  }
}
