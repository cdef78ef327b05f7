/** Where every body comes from: nothing is cached or served that the store has
    not held at that key's location, and nothing above the cap is cached. */
module Provenance {
  import opened Prelude
  import opened Uploads
  import opened Service
  import opened Flights
  import opened SingleFlight

  function OkBody(r: Fetched): Option<Bytes> {
    if r.Ok? then Some(r.value.bytes) else None
  }

  /** The object body a phase carries, as read from the store or the cache, or as
      the store took it. */
  function BodyAt(p: Phase): Option<Bytes> {
    match p
    case Reading(_, b) => Some(b)
    case Inserting(_, b) => Some(b)
    case Completing(_, r) => OkBody(r)
    case Releasing(_, r) => OkBody(r)
    case Relooking(_, entry) => Some(entry.bytes)
    case Finishing(u, applied) => if applied then Some(u.sent) else None
    case Storing(u) => Some(u.sent)
    case _ => None
  }

  /** The body a GET or HEAD was answered with. */
  function Served(o: Outcome): Option<Bytes> {
    match o
    case Hit(entry) => Some(entry.bytes)
    case Led(_, r) => OkBody(r)
    case Shared(_, r) => OkBody(r)
    case Rehit(_, entry) => Some(entry.bytes)
    case Fallback(_, r) => OkBody(r)
    case _ => None
  }

  function BodyOf(x: Status): Option<Bytes> {
    if x.Finished? then Served(x.outcome) else BodyAt(x.at)
  }

  predicate PhaseFits(cap: nat, p: Phase) {
    match p
    case Inserting(_, b) => Admitted(cap, b)
    case Streaming(_, u) => Sound(cap, u)
    case Finishing(u, _) => Sound(cap, u)
    case Storing(u) => Sound(cap, u) && !u.capped
    case _ => true
  }

  predicate Fits(cap: nat, x: Status) {
    x.Finished? || PhaseFits(cap, x.at)
  }

  predicate HeldAt(held: set<(Loc, Bytes)>, l: Loc, body: Option<Bytes>) {
    body.Some? ==> (l, body.value) in held
  }

  predicate TaskHeld(c: Config, held: set<(Loc, Bytes)>, x: Task) {
    HeldAt(held, c.loc(x.key), BodyOf(x.status)) && Fits(c.cap, x.status)
  }

  predicate EntryHeld(c: Config, held: set<(Loc, Bytes)>, k: Key, entry: CacheEntry) {
    (c.loc(k), entry.bytes) in held && Admitted(c.cap, entry.bytes)
  }

  predicate FlightHeld(c: Config, held: set<(Loc, Bytes)>, f: Flight) {
    f.result.Some? ==> HeldAt(held, c.loc(f.key), OkBody(f.result.value))
  }

  ghost predicate HeldInv(c: Config, s: State) {
    && (forall l :: l in s.store ==> (l, s.store[l]) in s.held)
    && (forall k :: k in s.cache ==> EntryHeld(c, s.held, k, s.cache[k]))
    && (forall e :: e in s.flights ==> FlightHeld(c, s.held, s.flights[e]))
    && (forall t :: t in s.tasks ==> TaskHeld(c, s.held, s.tasks[t]))
  }

  // ----- One step, on its own view -----

  predicate ViewHeld(c: Config, held: set<(Loc, Bytes)>, v: View) {
    var k := v.task.key;
    && TaskHeld(c, held, v.task)
    && (v.cached.Some? ==> EntryHeld(c, held, k, v.cached.value))
    && (v.flight.Some? ==> v.flight.value.key == k && FlightHeld(c, held, v.flight.value))
    && HeldAt(held, c.loc(k), v.stored)
  }

  predicate EffectHeld(c: Config, held: set<(Loc, Bytes)>, k: Key, kind: Kind, e: Effect) {
    && TaskHeld(c, held, Task(kind, k, e.status))
    && (e.cached.Some? ==> EntryHeld(c, held, k, e.cached.value))
    && (e.flight.Some? ==> FlightHeld(c, held, e.flight.value.1))
    && HeldAt(held, c.loc(k), e.stored)
  }

  /** Within the cap, and whole, when it is about to be cached. */
  lemma StoredIsWhole(cap: nat, u: Upload)
    requires Sound(cap, u) && !u.capped
    ensures u.buffer == u.sent && Admitted(cap, u.sent)
  {}

  lemma StartSound(cap: nat)
    ensures Sound(cap, Start(cap))
  {}

  lemma BodyActHeld(c: Config, t: Tid, v: View, a: Action, held: set<(Loc, Bytes)>)
    requires ViewHeld(c, held, v) && v.task.status.Running?
    requires var p := v.task.status.at; p.PutStarting? || p.PutOpening? || p.Streaming? || p.Aborting?
    ensures var e := ActRunning(c, t, v, v.task.status.at, a);
      e.Some? ==> EffectHeld(c, Hold(held, c.loc(v.task.key), e.value.stored), v.task.key, v.task.kind, e.value)
  {
    StartSound(c.cap);
    hide Feed, Sound, Admitted, ValidPath, Start;
    if v.task.status.at.Streaming? {
      var stream, u := v.task.status.at.stream, v.task.status.at.upload;
      if stream != [] && stream[0].Data? { FeedSound(c.cap, c.max, u, stream[0].bytes); }
    }
  }

  lemma CommitActHeld(c: Config, t: Tid, v: View, a: Action, held: set<(Loc, Bytes)>)
    requires ViewHeld(c, held, v) && v.task.status.Running?
    requires v.task.status.at.Finishing? || v.task.status.at.Storing?
    ensures var e := ActRunning(c, t, v, v.task.status.at, a);
      e.Some? ==> EffectHeld(c, Hold(held, c.loc(v.task.key), e.value.stored), v.task.key, v.task.kind, e.value)
  {
    hide Sound, Admitted;
    if v.task.status.at.Storing? {
      StoredIsWhole(c.cap, v.task.status.at.upload);
    }
  }

  lemma PutActHeld(c: Config, t: Tid, v: View, a: Action, held: set<(Loc, Bytes)>)
    requires ViewHeld(c, held, v) && v.task.status.Running?
    requires PutPhase(v.task.status.at)
    ensures var e := ActRunning(c, t, v, v.task.status.at, a);
      e.Some? ==> EffectHeld(c, Hold(held, c.loc(v.task.key), e.value.stored), v.task.key, v.task.kind, e.value)
  {
    hide ActRunning, EffectHeld, ViewHeld;
    if v.task.status.at.Finishing? || v.task.status.at.Storing? {
      CommitActHeld(c, t, v, a, held);
    } else {
      BodyActHeld(c, t, v, a, held);
    }
  }

  lemma FetchActHeld(c: Config, t: Tid, v: View, a: Action, held: set<(Loc, Bytes)>)
    requires ViewHeld(c, held, v) && v.task.status.Running?
    requires FetchPhase(v.task.status.at)
    ensures var e := ActRunning(c, t, v, v.task.status.at, a);
      e.Some? ==> EffectHeld(c, Hold(held, c.loc(v.task.key), e.value.stored), v.task.key, v.task.kind, e.value)
  {
    hide Admitted, Sound;
  }

  lemma LookupActHeld(c: Config, t: Tid, v: View, a: Action, held: set<(Loc, Bytes)>)
    requires ViewHeld(c, held, v) && v.task.status.Running?
    requires var p := v.task.status.at; p.Lookup? || p.Relooking? || p.Heading?
    ensures var e := ActRunning(c, t, v, v.task.status.at, a);
      e.Some? ==> EffectHeld(c, Hold(held, c.loc(v.task.key), e.value.stored), v.task.key, v.task.kind, e.value)
  {
    hide Admitted, Sound, ValidPath;
  }

  lemma FlightActHeld(c: Config, t: Tid, v: View, a: Action, held: set<(Loc, Bytes)>)
    requires ViewHeld(c, held, v) && v.task.status.Running?
    requires Touches(v.task.status.at)
    ensures var e := ActRunning(c, t, v, v.task.status.at, a);
      e.Some? ==> EffectHeld(c, Hold(held, c.loc(v.task.key), e.value.stored), v.task.key, v.task.kind, e.value)
  {}

  lemma ActHeld(c: Config, t: Tid, v: View, a: Action, held: set<(Loc, Bytes)>)
    requires ViewHeld(c, held, v)
    ensures var e := Act(c, t, v, a);
      e.Some? ==> EffectHeld(c, Hold(held, c.loc(v.task.key), e.value.stored), v.task.key, v.task.kind, e.value)
  {
    hide ActRunning;
    if v.task.status.Running? && !a.Cancel? {
      var p := v.task.status.at;
      if Touches(p) {
        FlightActHeld(c, t, v, a, held);
      } else if FetchPhase(p) {
        FetchActHeld(c, t, v, a, held);
      } else if p.Lookup? || p.Relooking? || p.Heading? {
        LookupActHeld(c, t, v, a, held);
      } else {
        PutActHeld(c, t, v, a, held);
      }
    }
  }

  // ----- Every step -----

  lemma ViewIsHeld(c: Config, s: State, t: Tid)
    requires FlightInv(s) && HeldInv(c, s) && t in s.tasks
    ensures ViewHeld(c, s.held, ViewOf(c, s, t))
  {
    hide FlightInv;
    EntryKey(s, t);
  }

  lemma EntryKey(s: State, t: Tid)
    requires FlightInv(s) && t in s.tasks
    ensures var id := EntryOf(s.tasks[t].status);
      id.Some? ==> id.value in s.flights && s.flights[id.value].key == s.tasks[t].key
  {
    RoleFacts(s, t, RoleOf(s.tasks[t]));
    EntryHasRole(s.tasks[t]);
  }

  lemma EntryHasRole(x: Task)
    ensures EntryOf(x.status).Some? ==> !RoleOf(x).Free? && RoleOf(x).eid == EntryOf(x.status).value && RoleOf(x).key == x.key
  {}

  lemma ApplyHeld(c: Config, s: State, t: Tid, e: Effect)
    requires HeldInv(c, s) && t in s.tasks
    requires var x := s.tasks[t]; EffectHeld(c, Hold(s.held, c.loc(x.key), e.stored), x.key, x.kind, e)
    ensures HeldInv(c, Apply(c, s, t, e))
  {
    var s' := Apply(c, s, t, e);
    assert s.held <= s'.held;
    forall u | u in s'.tasks ensures TaskHeld(c, s'.held, s'.tasks[u]) {
      if u != t && u in s.tasks { assert TaskHeld(c, s.held, s.tasks[u]); }
    }
  }

  lemma StepHeld(c: Config, s: State, step: Step)
    requires FlightInv(s) && HeldInv(c, s) && Enabled(c, s, step)
    ensures HeldInv(c, Do(c, s, step))
  {
    hide FlightInv, Act;
    match step
    case Arrive(t, kind, key, stream) =>
    case Take(t, a) =>
      var e := Act(c, t, ViewOf(c, s, t), a).value;
      ViewIsHeld(c, s, t);
      ActHeld(c, t, ViewOf(c, s, t), a, s.held);
      ApplyHeld(c, s, t, e);
    case Evict(_) =>
    case External(_, _) =>
  }

  lemma {:induction false} RunHeld(c: Config, r: Run, i: nat)
    requires ValidRun(c, r) && i < |r.states|
    ensures HeldInv(c, r.states[i])
  {
    if i > 0 {
      hide Enabled, Do, Init, FlightInv, HeldInv;
      RunHeld(c, r, i - 1);
      RunKeeps(c, r, i - 1);
      StepHeld(c, r.states[i - 1], r.steps[i - 1]);
    }
  }

  // ----- Over a whole run -----

  predicate StoredAt(r: Run, j: nat, l: Loc, body: Bytes) {
    j < |r.states| && SlotOf(r.states[j].store, l) == Some(body)
  }

  /** `l` held `body` at some moment up to `i`, or already before the run. */
  ghost predicate WasStored(r: Run, i: nat, l: Loc, body: Bytes)
    requires |r.states| > 0
  {
    (l, body) in r.states[0].held || exists j :: 0 <= j <= i && StoredAt(r, j, l, body)
  }

  lemma StepHolds(c: Config, s: State, step: Step, l: Loc, body: Bytes)
    requires Enabled(c, s, step) && (l, body) in Do(c, s, step).held
    ensures (l, body) in s.held || SlotOf(Do(c, s, step).store, l) == Some(body)
  {
    hide Act;
  }

  lemma {:induction false} HeldWasStored(c: Config, r: Run, i: nat, l: Loc, body: Bytes)
    requires ValidRun(c, r) && i < |r.states| && (l, body) in r.states[i].held
    ensures WasStored(r, i, l, body)
  {
    if i > 0 {
      hide Enabled, Do;
      StepHolds(c, r.states[i - 1], r.steps[i - 1], l, body);
      if (l, body) in r.states[i - 1].held {
        HeldWasStored(c, r, i - 1, l, body);
      } else {
        assert StoredAt(r, i, l, body);
      }
    }
  }

  /** Under overwrites, races, failures, cancellations and evictions alike, every
      cached body and every body a request is answered with is a value the store
      held at that key's location, whole; and no cached body is above the cap. */
  lemma EveryBodyWasStored(c: Config, r: Run, i: nat)
    requires ValidRun(c, r) && i < |r.states|
    ensures forall k :: k in r.states[i].cache ==>
      && WasStored(r, i, c.loc(k), r.states[i].cache[k].bytes)
      && Admitted(c.cap, r.states[i].cache[k].bytes)
    ensures forall t :: t in r.states[i].tasks && BodyOf(r.states[i].tasks[t].status).Some? ==>
      WasStored(r, i, c.loc(r.states[i].tasks[t].key), BodyOf(r.states[i].tasks[t].status).value)
  {
    var s := r.states[i];
    RunHeld(c, r, i);
    forall k | k in s.cache
      ensures WasStored(r, i, c.loc(k), s.cache[k].bytes) && Admitted(c.cap, s.cache[k].bytes)
    {
      assert EntryHeld(c, s.held, k, s.cache[k]);
      HeldWasStored(c, r, i, c.loc(k), s.cache[k].bytes);
    }
    forall t | t in s.tasks && BodyOf(s.tasks[t].status).Some?
      ensures WasStored(r, i, c.loc(s.tasks[t].key), BodyOf(s.tasks[t].status).value)
    {
      assert TaskHeld(c, s.held, s.tasks[t]);
      HeldWasStored(c, r, i, c.loc(s.tasks[t].key), BodyOf(s.tasks[t].status).value);
    }
  }

  /** The README's promise of the store (README.md:11): objects are never
      modified or deleted after creation, nor have been before the run. */
  ghost predicate WriteOnce(r: Run) {
    && |r.states| > 0
    && (forall l, b :: (l, b) in r.states[0].held ==> SlotOf(r.states[0].store, l) == Some(b))
    && (forall i, l :: 0 <= i < |r.states| - 1 && l in r.states[i].store ==>
          SlotOf(r.states[i + 1].store, l) == SlotOf(r.states[i].store, l))
  }

  lemma {:induction false} WriteOnceLasts(r: Run, i: nat, j: nat, l: Loc)
    requires WriteOnce(r) && i <= j < |r.states| && l in r.states[i].store
    ensures SlotOf(r.states[j].store, l) == SlotOf(r.states[i].store, l)
  {
    if i < j {
      WriteOnceLasts(r, i, j - 1, l);
      assert l in r.states[j - 1].store;
    }
  }

  /** What a reader without the cache would get. */
  function DirectRead(c: Config, s: State, k: Key): Option<Bytes> {
    SlotOf(s.store, c.loc(k))
  }

  /** Over write-once objects the service refines a direct read of the store: in
      every run every body served, by a hit, as a leader, to a follower from the
      cache or from the leader, or by a fallback fetch, is the body the store
      holds, then and at any later moment. */
  lemma ServiceRefinesDirectRead(c: Config, r: Run, i: nat, j: nat, t: Tid)
    requires ValidRun(c, r) && WriteOnce(r) && i <= j < |r.states|
    requires t in r.states[i].tasks && r.states[i].tasks[t].status.Finished?
    requires Served(r.states[i].tasks[t].status.outcome).Some?
    ensures DirectRead(c, r.states[j], r.states[i].tasks[t].key) == Served(r.states[i].tasks[t].status.outcome)
  {
    var x := r.states[i].tasks[t];
    var l, b := c.loc(x.key), Served(x.status.outcome).value;
    EveryBodyWasStored(c, r, i);
    assert WasStored(r, i, l, b);
    if (l, b) in r.states[0].held {
      WriteOnceLasts(r, 0, j, l);
    } else {
      var m :| 0 <= m <= i && StoredAt(r, m, l, b);
      WriteOnceLasts(r, m, j, l);
    }
  }
}
