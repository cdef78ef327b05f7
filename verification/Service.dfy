/** The service as a labelled transition system over any number of concurrent
    tasks and keys (src/handler.rs, src/inflight.rs).

    A task runs from one await or lock to the next in one step. Such a step reads
    and writes only its own task, the cache and in-flight slots of its key, one
    in-flight entry and the stored object behind its key: `Act` computes it on
    that view, and `Apply` writes the result back into the shared state. All
    nondeterminism is in the action, so a step has exactly one outcome. */
module Service {
  import opened Prelude
  import opened Slots
  import opened Uploads

  type Tid = nat
  type Eid = nat

  datatype Key = Key(bucket: string, path: string)

  /** What a store addresses. Several keys may share one location. */
  datatype Loc = Loc(store: string, path: string)

  /** `known` are the configured bucket ids, `cap` is `cache_max_object_bytes`
      as a `usize` and `max` is `usize::MAX`. */
  datatype Config = Config(
    loc: Key -> Loc,
    known: set<string>,
    cap: nat,
    max: nat,
    mime: (string, Bytes) -> string)

  datatype CacheEntry = CacheEntry(bytes: Bytes, contentType: Option<string>)

  datatype AppError = BadPath | BadBody | UnknownBucket | NotFound | BadGateway

  /** `object_store::Error::NotFound`, or any other error. */
  datatype StoreError = Missing | Upstream

  function FromStore(e: StoreError): AppError {
    if e.Missing? then NotFound else BadGateway
  }

  type Fetched = Result<CacheEntry, AppError>

  datatype Method = GET | HEAD | PUT

  datatype Kind = Get | Head(prefetch: bool) | Prefetch | Put(contentType: Option<string>)

  function MethodOf(k: Kind): Method {
    match k
    case Get => GET
    case Put(_) => PUT
    case _ => HEAD
  }

  /** Who is fetching: the leader holding the entry's guard, or a follower of
      that entry that was woken without a result. */
  datatype Owner = Guard(eid: Eid) | Unguarded(eid: Eid)

  /** Where a running task stands: the await it will resume from. */
  datatype Phase =
    | Lookup                                // cache.get
    | Acquiring                             // inflight.acquire
    | Fetching(owner: Owner)                // about to call store.get
    | Getting(owner: Owner)                 // store.get called
    | Reading(owner: Owner, body: Bytes)    // result.bytes
    | Inserting(owner: Owner, body: Bytes)  // cache.put of a fetched body
    | Completing(eid: Eid, result: Fetched) // result.lock in complete
    | Releasing(eid: Eid, result: Fetched)  // inner.lock in complete's release
    | Registering(eid: Eid)                 // before notified() is created
    | Waiting(eid: Eid, early: bool)        // registered; early: before the release
    | Relooking(eid: Eid, entry: CacheEntry) // second cache.get
    | Heading                               // store.head of HEAD
    | PutStarting(stream: seq<Chunk>)       // store.head of PUT
    | PutOpening(stream: seq<Chunk>)        // put_multipart
    | Streaming(stream: seq<Chunk>, upload: Upload)
    | Aborting
    | Finishing(upload: Upload, applied: bool) // write.finish; applied: the store took it
    | Storing(upload: Upload)               // cache.put of an uploaded body

  datatype Outcome =
    | Rejected                                // invalid object path
    | Hit(entry: CacheEntry)
    | Led(eid: Eid, result: Fetched)
    | Shared(eid: Eid, result: Fetched)       // follower, with the leader's result
    | Rehit(eid: Eid, entry: CacheEntry)      // follower, from the cache
    | Fallback(eid: Eid, result: Fetched)     // follower, fetched for itself
    | Skipped(eid: Eid)                       // prefetch that found a flight
    | HeadOk(size: nat)
    | Early(error: AppError)                  // left by `?` or `return`, uncounted
    | Uploaded(total: nat)
    | Failed(error: AppError)                 // PUT answered with an error

  /** A cancelled task that held a guard is Dropping until the release spawned
      by the guard's destructor has run. */
  datatype Status =
    | Running(at: Phase)
    | Dropping(at: Phase)
    | Cancelled(at: Phase)
    | Finished(outcome: Outcome)

  datatype Task = Task(kind: Kind, key: Key, status: Status)

  /** An in-flight entry, with the history of who led it and how often its
      result was written and it was released. */
  datatype Flight = Flight(
    key: Key,
    leader: Tid,
    result: Option<Fetched>,
    waiters: set<Tid>,
    notified: set<Tid>,
    writes: nat,
    releases: nat)

  datatype Metrics = Metrics(
    requests: multiset<Method>,
    hits: multiset<Method>,
    misses: multiset<Method>,
    upstreamOk: multiset<Method>,
    upstreamErr: multiset<Method>)

  /** Per-key history, read by no step: lookups that missed, leader permits,
      followers woken with None and upstream get calls. */
  datatype History = History(
    missed: multiset<Key>,
    permits: multiset<Key>,
    nones: multiset<Key>,
    gets: multiset<Key>)

  /** `held` is every value a location has held so far. */
  datatype State = State(
    store: map<Loc, Bytes>,
    held: set<(Loc, Bytes)>,
    cache: map<Key, CacheEntry>,
    inner: map<Key, Eid>,
    flights: map<Eid, Flight>,
    tasks: map<Tid, Task>,
    metrics: Metrics,
    history: History)

  /** `Go` is the one normal outcome of a step; the others name the choice made
      by the cache, the store, the allocator or the client. */
  datatype Action =
    | Go
    | Miss
    | Elect(id: Eid)
    | Fail(error: StoreError)
    | Spawn(child: Tid)
    | Commit
    | Cancel

  datatype Step =
    | Arrive(t: Tid, kind: Kind, key: Key, stream: seq<Chunk>)
    | Take(t: Tid, a: Action)
    | Evict(key: Key)
    | External(loc: Loc, body: Option<Bytes>)

  datatype View = View(
    task: Task,
    cached: Option<CacheEntry>,
    current: Option<Eid>,
    flight: Option<Flight>,
    stored: Option<Bytes>)

  datatype Emit = Emit(
    request: bool, hit: bool, miss: bool, ok: bool, err: bool,
    permit: bool, none: bool, get: bool)

  const Quiet := Emit(false, false, false, false, false, false, false, false)

  datatype Effect = Effect(
    status: Status,
    cached: Option<CacheEntry>,
    current: Option<Eid>,
    flight: Option<(Eid, Flight)>,
    stored: Option<Bytes>,
    spawn: Option<Tid>,
    emit: Emit)

  // ----- Reading a status -----

  /** The entry a phase belongs to, as its leader or as a follower. */
  function EntryAt(p: Phase): Option<Eid> {
    match p
    case Fetching(o) => Some(o.eid)
    case Getting(o) => Some(o.eid)
    case Reading(o, _) => Some(o.eid)
    case Inserting(o, _) => Some(o.eid)
    case Completing(e, _) => Some(e)
    case Releasing(e, _) => Some(e)
    case Registering(e) => Some(e)
    case Waiting(e, _) => Some(e)
    case Relooking(e, _) => Some(e)
    case _ => None
  }

  function EntryOf(x: Status): Option<Eid> {
    match x
    case Finished(o) =>
      if o.Led? || o.Shared? || o.Rehit? || o.Fallback? || o.Skipped? then Some(o.eid) else None
    case _ => EntryAt(x.at)
  }

  /** The entry whose guard is alive in a phase. */
  function GuardAt(p: Phase): Option<Eid> {
    match p
    case Fetching(Guard(e)) => Some(e)
    case Getting(Guard(e)) => Some(e)
    case Reading(Guard(e), _) => Some(e)
    case Inserting(Guard(e), _) => Some(e)
    case Completing(e, _) => Some(e)
    case Releasing(e, _) => Some(e)
    case _ => None
  }

  /** The entry a task still has to release, by its guard or by the release
      spawned when the guard was dropped. */
  function Duty(x: Status): Option<Eid> {
    match x
    case Running(p) => GuardAt(p)
    case Dropping(p) => GuardAt(p)
    case _ => None
  }

  // ----- What an entry goes through -----

  function Filled(f: Flight, r: Fetched): Flight {
    f.(result := Some(r), writes := f.writes + 1)
  }

  function Joined(f: Flight, t: Tid): Flight {
    f.(waiters := f.waiters + {t})
  }

  function Left(f: Flight, t: Tid): Flight {
    f.(waiters := f.waiters - {t}, notified := f.notified - {t})
  }

  /** `notify_waiters`: wakes those in the list and stores nothing for later. */
  function Released(f: Flight): Flight {
    f.(waiters := {}, notified := f.notified + f.waiters, releases := f.releases + 1)
  }

  // ----- The local steps -----

  predicate ValidPath(path: string) {
    && path != ""
    && path[0] != '/'
    && forall i :: 0 <= i < |path| - 1 ==> !(path[i] == '.' && path[i + 1] == '.')
  }

  function To(v: View, status: Status, emit: Emit): Effect {
    Effect(status, v.cached, v.current, None, v.stored, None, emit)
  }

  function Next(v: View, p: Phase): Effect {
    To(v, Running(p), Quiet)
  }

  function ActLookup(v: View, a: Action): Option<Effect> {
    if !ValidPath(v.task.key.path) then
      if a.Go? then Some(To(v, Finished(Rejected), Quiet.(request := true))) else None
    else match a
      case Go =>
        if v.cached.Some? then
          Some(To(v, Finished(Hit(v.cached.value)), Quiet.(request := true, hit := true)))
        else None
      case Miss =>
        Some(To(v, Running(if v.task.kind.Head? then Heading else Acquiring), Quiet.(miss := true)))
      case _ => None
  }

  function ActAcquire(t: Tid, v: View, a: Action): Option<Effect> {
    if !a.Elect? then None else
    var (slot, permit) := AcquireSlot(v.current, a.id);
    match permit
    case Leader(e) =>
      Some(To(v, Running(Fetching(Guard(e))), Quiet.(permit := true)).(
        current := slot,
        flight := Some((e, Flight(v.task.key, t, None, {}, {}, 0, 0)))))
    case Follower(e) =>
      Some(if v.task.kind.Get? then Next(v, Registering(e)) else To(v, Finished(Skipped(e)), Quiet))
  }

  /** `fetch_and_cache_entry` returns. */
  function FetchDone(v: View, o: Owner, r: Fetched, emit: Emit): Effect {
    match o
    case Guard(e) => To(v, Running(Completing(e, r)), emit)
    case Unguarded(e) => To(v, Finished(Fallback(e, r)), emit.(request := true))
  }

  function ActFetch(c: Config, v: View, o: Owner, a: Action): Option<Effect> {
    if !a.Go? then None
    else if v.task.key.bucket !in c.known then Some(FetchDone(v, o, Err(UnknownBucket), Quiet))
    else Some(To(v, Running(Getting(o)), Quiet.(get := true)))
  }

  function ActGet(v: View, o: Owner, a: Action): Option<Effect> {
    match a
    case Go => if v.stored.Some? then Some(Next(v, Reading(o, v.stored.value))) else None
    case Fail(e) => Some(FetchDone(v, o, Err(FromStore(e)), Quiet.(err := true)))
    case _ => None
  }

  function FetchedEntry(c: Config, key: Key, body: Bytes): CacheEntry {
    CacheEntry(body, Some(c.mime(key.path, body)))
  }

  function ActRead(c: Config, v: View, o: Owner, body: Bytes, a: Action): Option<Effect> {
    match a
    case Go =>
      if Admitted(c.cap, body) then Some(To(v, Running(Inserting(o, body)), Quiet.(ok := true)))
      else Some(FetchDone(v, o, Ok(FetchedEntry(c, v.task.key, body)), Quiet.(ok := true)))
    case Fail(e) => Some(FetchDone(v, o, Err(FromStore(e)), Quiet.(err := true)))
    case _ => None
  }

  function ActInsert(c: Config, v: View, o: Owner, body: Bytes, a: Action): Option<Effect> {
    if !a.Go? then None else
    var entry := FetchedEntry(c, v.task.key, body);
    Some(FetchDone(v, o, Ok(entry), Quiet).(cached := Some(entry)))
  }

  function ActWrite(v: View, e: Eid, r: Fetched, a: Action): Option<Effect> {
    if !a.Go? || v.flight.None? then None else
    Some(Next(v, Releasing(e, r)).(flight := Some((e, Filled(v.flight.value, r)))))
  }

  /** `release`: only the slot's current entry is removed, and its waiters woken. */
  function ReleaseEffect(v: View, e: Eid, status: Status, emit: Emit): Effect {
    var x := To(v, status, emit);
    if Releases(v.current, e) && v.flight.Some? then
      x.(current := ReleaseSlot(v.current, e), flight := Some((e, Released(v.flight.value))))
    else x
  }

  function ActRelease(v: View, e: Eid, r: Fetched, a: Action): Option<Effect> {
    if !a.Go? then None
    else Some(ReleaseEffect(v, e, Finished(Led(e, r)), Quiet.(request := v.task.kind.Get?)))
  }

  function ActRegister(t: Tid, v: View, e: Eid, a: Action): Option<Effect> {
    if !a.Go? || v.flight.None? then None else
    var f := v.flight.value;
    Some(Next(v, Waiting(e, f.releases == 0)).(flight := Some((e, Joined(f, t)))))
  }

  function ActWake(t: Tid, v: View, e: Eid, a: Action): Option<Effect> {
    if !a.Go? || v.flight.None? || t !in v.flight.value.notified then None else
    var f := v.flight.value;
    var woken := Some((e, Left(f, t)));
    match f.result
    case None => Some(To(v, Running(Fetching(Unguarded(e))), Quiet.(none := true)).(flight := woken))
    case Some(Ok(entry)) => Some(Next(v, Relooking(e, entry)).(flight := woken))
    case Some(Err(x)) =>
      Some(To(v, Finished(Shared(e, Err(x))), Quiet.(request := true)).(flight := woken))
  }

  function ActRelook(v: View, e: Eid, entry: CacheEntry, a: Action): Option<Effect> {
    match a
    case Go =>
      if v.cached.Some? then Some(To(v, Finished(Rehit(e, v.cached.value)), Quiet.(request := true))) else None
    case Miss => Some(To(v, Finished(Shared(e, Ok(entry))), Quiet.(request := true)))
    case _ => None
  }

  function ActHead(c: Config, v: View, a: Action): Option<Effect> {
    if v.task.key.bucket !in c.known then
      if a.Go? then Some(To(v, Finished(Early(UnknownBucket)), Quiet)) else None
    else match a
      case Fail(e) => Some(To(v, Finished(Early(FromStore(e))), Quiet.(err := true)))
      case Go =>
        if v.stored.Some? && v.task.kind == Head(false)
        then Some(To(v, Finished(HeadOk(|v.stored.value|)), Quiet.(ok := true, request := true)))
        else None
      case Spawn(child) =>
        if v.stored.Some? && v.task.kind == Head(true)
        then Some(To(v, Finished(HeadOk(|v.stored.value|)), Quiet.(ok := true, request := true)).(
                    spawn := Some(child)))
        else None
      case _ => None
  }

  function ActPutStart(c: Config, v: View, stream: seq<Chunk>, a: Action): Option<Effect> {
    if !a.Go? then None
    else if !ValidPath(v.task.key.path) then Some(To(v, Finished(Rejected), Quiet.(request := true)))
    else if v.task.key.bucket !in c.known then Some(To(v, Finished(Early(UnknownBucket)), Quiet))
    else Some(Next(v, PutOpening(stream)))
  }

  function ActPutOpen(c: Config, v: View, stream: seq<Chunk>, a: Action): Option<Effect> {
    match a
    case Go => Some(Next(v, Streaming(stream, Start(c.cap))))
    case Fail(e) => Some(To(v, Finished(Failed(FromStore(e))), Quiet.(err := true, request := true)))
    case _ => None
  }

  function ActStream(c: Config, v: View, stream: seq<Chunk>, u: Upload, a: Action): Option<Effect> {
    if !a.Go? then None
    else if stream == [] then Some(Next(v, Finishing(u, false)))
    else match stream[0]
      case Broken => Some(Next(v, Aborting))
      case Data(chunk) => Some(Next(v, Streaming(stream[1..], Feed(c.cap, c.max, u, chunk))))
  }

  function ActAbort(v: View, a: Action): Option<Effect> {
    if a.Go? then Some(To(v, Finished(Failed(BadBody)), Quiet.(request := true))) else None
  }

  /** The store applies the upload at most once, and only then can finish
      succeed; an error or a cancellation may come after it was applied. */
  function ActFinish(v: View, u: Upload, applied: bool, a: Action): Option<Effect> {
    match a
    case Commit => if applied then None else Some(Next(v, Finishing(u, true)).(stored := Some(u.sent)))
    case Go =>
      if !applied then None
      else if u.capped then
        Some(To(v, Finished(Uploaded(u.total)), Quiet.(ok := true, request := true)))
      else Some(To(v, Running(Storing(u)), Quiet.(ok := true)))
    case Fail(e) => Some(To(v, Finished(Failed(FromStore(e))), Quiet.(err := true, request := true)))
    case _ => None
  }

  function ActStore(v: View, u: Upload, a: Action): Option<Effect> {
    if !a.Go? || !v.task.kind.Put? then None
    else Some(To(v, Finished(Uploaded(u.total)), Quiet.(request := true)).(
                cached := Some(CacheEntry(u.buffer, v.task.kind.contentType))))
  }

  /** Dropping the future: a waiter leaves the entry's lists, a guard spawns its
      release. */
  function ActCancel(t: Tid, v: View, p: Phase): Effect {
    if GuardAt(p).Some? then To(v, Dropping(p), Quiet)
    else if p.Waiting? && v.flight.Some? then
      To(v, Cancelled(p), Quiet).(flight := Some((p.eid, Left(v.flight.value, t))))
    else To(v, Cancelled(p), Quiet)
  }

  function ActRunning(c: Config, t: Tid, v: View, p: Phase, a: Action): Option<Effect> {
    match p
    case Lookup => ActLookup(v, a)
    case Acquiring => ActAcquire(t, v, a)
    case Fetching(o) => ActFetch(c, v, o, a)
    case Getting(o) => ActGet(v, o, a)
    case Reading(o, body) => ActRead(c, v, o, body, a)
    case Inserting(o, body) => ActInsert(c, v, o, body, a)
    case Completing(e, r) => ActWrite(v, e, r, a)
    case Releasing(e, r) => ActRelease(v, e, r, a)
    case Registering(e) => ActRegister(t, v, e, a)
    case Waiting(e, _) => ActWake(t, v, e, a)
    case Relooking(e, entry) => ActRelook(v, e, entry, a)
    case Heading => ActHead(c, v, a)
    case PutStarting(stream) => ActPutStart(c, v, stream, a)
    case PutOpening(stream) => ActPutOpen(c, v, stream, a)
    case Streaming(stream, u) => ActStream(c, v, stream, u, a)
    case Aborting => ActAbort(v, a)
    case Finishing(u, applied) => ActFinish(v, u, applied, a)
    case Storing(u) => ActStore(v, u, a)
  }

  function Act(c: Config, t: Tid, v: View, a: Action): Option<Effect> {
    match v.task.status
    case Running(p) => if a.Cancel? then Some(ActCancel(t, v, p)) else ActRunning(c, t, v, p, a)
    case Dropping(p) =>
      if a.Go? && GuardAt(p).Some? then Some(ReleaseEffect(v, GuardAt(p).value, Cancelled(p), Quiet)) else None
    case _ => None
  }

  // ----- The global steps -----

  function ViewOf(c: Config, s: State, t: Tid): View
    requires t in s.tasks
  {
    var x := s.tasks[t];
    View(x, SlotOf(s.cache, x.key), SlotOf(s.inner, x.key),
         match EntryOf(x.status) case Some(e) => SlotOf(s.flights, e) case None => None,
         SlotOf(s.store, c.loc(x.key)))
  }

  function Bump<K>(m: multiset<K>, k: K, b: bool): multiset<K> {
    if b then m + multiset{k} else m
  }

  function Count(m: Metrics, x: Method, e: Emit): Metrics {
    Metrics(Bump(m.requests, x, e.request), Bump(m.hits, x, e.hit), Bump(m.misses, x, e.miss),
            Bump(m.upstreamOk, x, e.ok), Bump(m.upstreamErr, x, e.err))
  }

  function Record(h: History, k: Key, e: Emit): History {
    History(Bump(h.missed, k, e.miss), Bump(h.permits, k, e.permit),
            Bump(h.nones, k, e.none), Bump(h.gets, k, e.get))
  }

  function Hold(held: set<(Loc, Bytes)>, l: Loc, body: Option<Bytes>): set<(Loc, Bytes)> {
    if body.Some? then held + {(l, body.value)} else held
  }

  function WithChild(tasks: map<Tid, Task>, spawn: Option<Tid>, key: Key): map<Tid, Task> {
    if spawn.Some? then tasks[spawn.value := Task(Prefetch, key, Running(Acquiring))] else tasks
  }

  function Touch(flights: map<Eid, Flight>, f: Option<(Eid, Flight)>): map<Eid, Flight> {
    if f.Some? then flights[f.value.0 := f.value.1] else flights
  }

  function Apply(c: Config, s: State, t: Tid, e: Effect): State
    requires t in s.tasks
  {
    var x := s.tasks[t];
    State(
      SetSlot(s.store, c.loc(x.key), e.stored),
      Hold(s.held, c.loc(x.key), e.stored),
      SetSlot(s.cache, x.key, e.cached),
      SetSlot(s.inner, x.key, e.current),
      Touch(s.flights, e.flight),
      WithChild(s.tasks, e.spawn, x.key)[t := x.(status := e.status)],
      Count(s.metrics, MethodOf(x.kind), e.emit),
      Record(s.history, x.key, e.emit))
  }

  function FirstPhase(kind: Kind, stream: seq<Chunk>): Phase {
    if kind.Put? then PutStarting(stream) else Lookup
  }

  /** Entry and task identifiers are fresh. */
  predicate FreshIds(s: State, a: Action) {
    && (a.Elect? ==> a.id !in s.flights)
    && (a.Spawn? ==> a.child !in s.tasks)
  }

  predicate Enabled(c: Config, s: State, step: Step) {
    match step
    case Arrive(t, kind, _, _) => t !in s.tasks && !kind.Prefetch?
    case Take(t, a) => t in s.tasks && FreshIds(s, a) && Act(c, t, ViewOf(c, s, t), a).Some?
    case Evict(_) => true
    case External(_, _) => true
  }

  function Do(c: Config, s: State, step: Step): State
    requires Enabled(c, s, step)
  {
    match step
    case Arrive(t, kind, key, stream) =>
      s.(tasks := s.tasks[t := Task(kind, key, Running(FirstPhase(kind, stream)))])
    case Take(t, a) => Apply(c, s, t, Act(c, t, ViewOf(c, s, t), a).value)
    case Evict(key) => s.(cache := s.cache - {key})
    case External(l, body) => s.(store := SetSlot(s.store, l, body), held := Hold(s.held, l, body))
  }

  // ----- Runs -----

  /** No task has arrived. The store may hold objects, and the cache may hold
      entries recovered from disk, each a former value of its location. */
  predicate Init(c: Config, s: State) {
    && s.inner == map[] && s.flights == map[] && s.tasks == map[]
    && s.metrics == Metrics(multiset{}, multiset{}, multiset{}, multiset{}, multiset{})
    && s.history == History(multiset{}, multiset{}, multiset{}, multiset{})
    && (forall l :: l in s.store ==> (l, s.store[l]) in s.held)
    && (forall k :: k in s.cache ==>
          (c.loc(k), s.cache[k].bytes) in s.held && Admitted(c.cap, s.cache[k].bytes))
  }

  datatype Run = Run(states: seq<State>, steps: seq<Step>)

  predicate ValidRun(c: Config, r: Run) {
    && |r.states| == |r.steps| + 1
    && Init(c, r.states[0])
    && forall i :: 0 <= i < |r.steps| ==>
         Enabled(c, r.states[i], r.steps[i]) && r.states[i + 1] == Do(c, r.states[i], r.steps[i])
  }
}
