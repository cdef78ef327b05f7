/** What requests are answered with, and why: over every run each answer goes back to
    the path, the configured buckets, the cache or a store call of that very request
    or of the leader it followed (src/handler.rs). */
module Answers {
  import opened Prelude
  import opened Uploads
  import opened Service
  import opened Flights
  import opened SingleFlight
  import opened Tallies
  import opened Ledger
  import opened Provenance
  import opened Requests

  // ----- Admission -----

  predicate Cut(path: string, x: string, y: string) {
    path == x + ".." + y
  }

  /** Empty, or absolute, or with two dots in a row anywhere. */
  ghost predicate BadPath(path: string) {
    path == "" || path[0] == '/' || exists x: string, y: string :: Cut(path, x, y)
  }

  lemma ValidPathMeans(path: string)
    ensures ValidPath(path) <==> !BadPath(path)
  {
    if i :| 0 <= i < |path| - 1 && path[i] == '.' && path[i + 1] == '.' {
      assert path == path[..i] + ".." + path[i + 2..];
      assert Cut(path, path[..i], path[i + 2..]);
    }
    if x: string, y: string :| Cut(path, x, y) {
      assert path[|x|] == ".."[0] && path[|x| + 1] == ".."[1];
    }
  }

  // ----- What a task can do, and what becomes of it -----

  /** A fetch hands its result to the flight it leads, or to its own request. */
  function Delivered(o: Owner, r: Fetched): Status {
    match o
    case Guard(e) => Running(Completing(e, r))
    case Unguarded(e) => Finished(Fallback(e, r))
  }

  function StoreAnswer(e: StoreError): AppError {
    match e
    case Missing => NotFound
    case Upstream => BadGateway
  }

  /** The entry a fetch of `body` makes. */
  function Fresh(c: Config, k: Key, body: Bytes): CacheEntry {
    CacheEntry(body, Some(c.mime(k.path, body)))
  }

  /** Whether a running task can take an action that is not giving up. */
  ghost predicate PossibleAt(c: Config, s: State, t: Tid, x: Task, p: Phase, a: Action) {
    match p
    case Lookup => if BadPath(x.key.path) then a.Go? else a.Miss? || (a.Go? && x.key in s.cache)
    case Acquiring => a.Elect? && a.id !in s.flights
    case Getting(_) => a.Fail? || (a.Go? && c.loc(x.key) in s.store)
    case Reading(_, _) => a.Go? || a.Fail?
    case Waiting(e, _) => a.Go? && e in s.flights && t in s.flights[e].notified
    case Relooking(_, _) => a.Miss? || (a.Go? && x.key in s.cache)
    case Heading =>
      if x.key.bucket !in c.known then a.Go?
      else a.Fail? || (c.loc(x.key) in s.store &&
                       if x.kind == Head(true) then a.Spawn? && a.child !in s.tasks else a.Go?)
    case PutOpening(_) => a.Go? || a.Fail?
    case Finishing(_, applied) => a.Fail? || (if applied then a.Go? else a.Commit?)
    case _ => a.Go?
  }

  ghost predicate Possible(c: Config, s: State, t: Tid, a: Action)
    requires t in s.tasks
  {
    match s.tasks[t].status
    case Running(p) => a.Cancel? || PossibleAt(c, s, t, s.tasks[t], p, a)
    case Dropping(_) => a.Go?
    case _ => false
  }

  ghost function BecomesAt(c: Config, s: State, x: Task, p: Phase, a: Action): Status {
    var k := x.key;
    match p
    case Lookup =>
      if BadPath(k.path) then Finished(Rejected)
      else if a.Go? && k in s.cache then Finished(Hit(s.cache[k]))
      else Running(if x.kind.Head? then Heading else Acquiring)
    case Acquiring =>
      if k in s.inner then (if x.kind.Get? then Running(Registering(s.inner[k])) else Finished(Skipped(s.inner[k])))
      else if a.Elect? then Running(Fetching(Guard(a.id))) else x.status
    case Fetching(o) => if k.bucket in c.known then Running(Getting(o)) else Delivered(o, Err(UnknownBucket))
    case Getting(o) =>
      if a.Fail? then Delivered(o, Err(StoreAnswer(a.error)))
      else if c.loc(k) in s.store then Running(Reading(o, s.store[c.loc(k)])) else x.status
    case Reading(o, body) =>
      if a.Fail? then Delivered(o, Err(StoreAnswer(a.error)))
      else if 0 < c.cap && |body| <= c.cap then Running(Inserting(o, body))
      else Delivered(o, Ok(Fresh(c, k, body)))
    case Inserting(o, body) => Delivered(o, Ok(Fresh(c, k, body)))
    case Completing(e, r) => Running(Releasing(e, r))
    case Releasing(e, r) => Finished(Led(e, r))
    case Registering(e) => Running(Waiting(e, e in s.flights && s.flights[e].releases == 0))
    case Waiting(e, _) =>
      if e !in s.flights || s.flights[e].result.None? then Running(Fetching(Unguarded(e)))
      else (match s.flights[e].result.value
            case Ok(entry) => Running(Relooking(e, entry))
            case Err(err) => Finished(Shared(e, Err(err))))
    case Relooking(e, entry) =>
      if a.Go? && k in s.cache then Finished(Rehit(e, s.cache[k])) else Finished(Shared(e, Ok(entry)))
    case Heading =>
      if k.bucket !in c.known then Finished(Early(UnknownBucket))
      else if a.Fail? then Finished(Early(StoreAnswer(a.error)))
      else if c.loc(k) in s.store then Finished(HeadOk(|s.store[c.loc(k)]|)) else x.status
    case PutStarting(stream) =>
      if BadPath(k.path) then Finished(Rejected)
      else if k.bucket !in c.known then Finished(Early(UnknownBucket))
      else Running(PutOpening(stream))
    case PutOpening(stream) =>
      if a.Fail? then Finished(Failed(StoreAnswer(a.error))) else Running(Streaming(stream, Start(c.cap)))
    case Streaming(stream, u) =>
      if stream == [] then Running(Finishing(u, false))
      else (match stream[0]
            case Broken => Running(Aborting)
            case Data(chunk) => Running(Streaming(stream[1..], Feed(c.cap, c.max, u, chunk))))
    case Aborting => Finished(Failed(BadBody))
    case Finishing(u, applied) =>
      if a.Fail? then Finished(Failed(StoreAnswer(a.error)))
      else if !applied then Running(Finishing(u, true))
      else if u.capped then Finished(Uploaded(u.total)) else Running(Storing(u))
    case Storing(u) => Finished(Uploaded(u.total))
  }

  /** The status a task has after a step, in terms of the state before it. */
  ghost function Becomes(c: Config, s: State, t: Tid, a: Action): Status
    requires t in s.tasks
  {
    match s.tasks[t].status
    case Running(p) =>
      if a.Cancel? then (if GuardAt(p).Some? then Dropping(p) else Cancelled(p))
      else BecomesAt(c, s, s.tasks[t], p, a)
    case Dropping(p) => Cancelled(p)
    case x => x
  }

  lemma ActReads(c: Config, s: State, t: Tid, p: Phase, a: Action)
    requires t in s.tasks && s.tasks[t].status == Running(p) && Typed(s.tasks[t]) && FreshIds(s, a) && !a.Cancel?
    requires EntryAt(p).Some? ==> EntryAt(p).value in s.flights
    requires ValidPath(s.tasks[t].key.path) <==> !BadPath(s.tasks[t].key.path)
    ensures var e := ActRunning(c, t, ViewOf(c, s, t), p, a);
      && (e.Some? <==> PossibleAt(c, s, t, s.tasks[t], p, a))
      && (e.Some? ==> e.value.status == BecomesAt(c, s, s.tasks[t], p, a))
  {
    hide ValidPath, BadPath, Feed;
  }

  lemma CancelReads(c: Config, s: State, t: Tid, a: Action)
    requires t in s.tasks && Typed(s.tasks[t])
    requires !s.tasks[t].status.Running? || a.Cancel?
    ensures var e := Act(c, t, ViewOf(c, s, t), a);
      && (e.Some? <==> Possible(c, s, t, a))
      && (e.Some? ==> e.value.status == Becomes(c, s, t, a))
  {}

  /** Which identifiers an action may draw follows from where its task stands. */
  lemma PossibleIsFresh(c: Config, s: State, t: Tid, a: Action)
    requires t in s.tasks && Possible(c, s, t, a)
    ensures FreshIds(s, a)
  {
    hide BadPath;
  }

  lemma StepMeans(c: Config, s: State, t: Tid, a: Action)
    requires FlightInv(s) && LedgerInv(s) && t in s.tasks
    ensures Enabled(c, s, Take(t, a)) <==> Possible(c, s, t, a)
    ensures Enabled(c, s, Take(t, a)) ==>
      t in Do(c, s, Take(t, a)).tasks
      && Do(c, s, Take(t, a)).tasks[t] == s.tasks[t].(status := Becomes(c, s, t, a))
  {
    assert Typed(s.tasks[t]);
    EntryKey(s, t);
    ValidPathMeans(s.tasks[t].key.path);
    hide FlightInv, LedgerInv, Typed, Act, ActRunning, BadPath, ValidPath, PossibleAt, BecomesAt;
    if Possible(c, s, t, a) {
      PossibleIsFresh(c, s, t, a);
    }
    if FreshIds(s, a) {
      if s.tasks[t].status.Running? && !a.Cancel? {
        ActReads(c, s, t, s.tasks[t].status.at, a);
        RunningAct(c, t, ViewOf(c, s, t), a);
      } else {
        CancelReads(c, s, t, a);
      }
    }
    if Enabled(c, s, Take(t, a)) {
      OwnStep(c, s, t, a);
    }
  }

  lemma RunningAct(c: Config, t: Tid, v: View, a: Action)
    requires v.task.status.Running? && !a.Cancel?
    ensures Act(c, t, v, a) == ActRunning(c, t, v, v.task.status.at, a)
  {
    hide ActRunning;
  }

  /** In every reachable state a task can do exactly what its phase, its path, its
      bucket, the cache, the store and its entry allow, and its status after the step
      is what they make of it. */
  lemma StepsAreExact(c: Config, r: Run, i: nat, t: Tid, a: Action)
    requires ValidRun(c, r) && i < |r.states| && t in r.states[i].tasks
    ensures var s := r.states[i];
      && (Enabled(c, s, Take(t, a)) <==> Possible(c, s, t, a))
      && (Enabled(c, s, Take(t, a)) ==>
            t in Do(c, s, Take(t, a)).tasks
            && Do(c, s, Take(t, a)).tasks[t] == s.tasks[t].(status := Becomes(c, s, t, a)))
  {
    RunKeeps(c, r, i);
    RunBalances(c, r, i);
    hide ValidRun, FlightInv, LedgerInv, Enabled, Do, Possible, Becomes;
    StepMeans(c, r.states[i], t, a);
  }

  /** What a step inserts into the cache under its task's key. */
  function Inserted(c: Config, x: Task, a: Action): Option<CacheEntry> {
    if !x.status.Running? || !a.Go? then None else
    match x.status.at
    case Inserting(_, body) => Some(Fresh(c, x.key, body))
    case Storing(u) => if x.kind.Put? then Some(CacheEntry(u.buffer, x.kind.contentType)) else None
    case _ => None
  }

  lemma ActInserts(c: Config, t: Tid, v: View, a: Action)
    ensures var e := Act(c, t, v, a); e.Some? ==>
      e.value.cached == (if Inserted(c, v.task, a).Some? then Inserted(c, v.task, a) else v.cached)
  {
    hide ValidPath, Feed, Start, Admitted;
  }

  lemma ActWrites(c: Config, t: Tid, v: View, a: Action)
    ensures var e := Act(c, t, v, a); e.Some? ==>
      && e.value.stored == (if a.Commit? && v.task.status.Running? && v.task.status.at.Finishing?
                            then Some(v.task.status.at.upload.sent) else v.stored)
      && e.value.emit.get == (v.task.status.Running? && v.task.status.at.Fetching? && a.Go? && v.task.key.bucket in c.known)
  {
    hide ValidPath, Feed, Start, Admitted;
  }

  /** Only an insert changes the cache and only a commit the store, and to what. */
  lemma WritesAreExact(c: Config, s: State, t: Tid, a: Action)
    requires Enabled(c, s, Take(t, a))
    ensures var s', x := Do(c, s, Take(t, a)), s.tasks[t];
      && s'.cache == (if Inserted(c, x, a).Some? then s.cache[x.key := Inserted(c, x, a).value] else s.cache)
      && s'.store == (if a.Commit? && x.status.Running? && x.status.at.Finishing?
                      then s.store[c.loc(x.key) := x.status.at.upload.sent] else s.store)
      && s'.history.gets == (if x.status.Running? && x.status.at.Fetching? && a.Go? && x.key.bucket in c.known
                             then s.history.gets + multiset{x.key} else s.history.gets)
  {
    hide Act, Count;
    var k := s.tasks[t].key;
    ActInserts(c, t, ViewOf(c, s, t), a);
    ActWrites(c, t, ViewOf(c, s, t), a);
    SetSlotSame(s.cache, k);
    SetSlotSame(s.store, c.loc(k));
  }

  lemma ActRecords(c: Config, t: Tid, v: View, a: Action)
    requires Act(c, t, v, a).Some?
    ensures var e, x := Act(c, t, v, a).value.emit, v.task.status;
      && (e.miss <==> x.Running? && x.at.Lookup? && a.Miss?)
      && (e.permit <==> x.Running? && x.at.Acquiring? && a.Elect? && v.current.None?)
      && (e.none <==> x.Running? && x.at.Waiting? && !a.Cancel? && v.flight.Some? && v.flight.value.result.None?)
  {
    hide ValidPath, Feed, Start;
  }

  /** The history records exactly the lookups that missed, the permits granted for a
      free slot, and the followers woken without a result. */
  lemma RecordsAreExact(c: Config, s: State, t: Tid, a: Action)
    requires FlightInv(s) && Enabled(c, s, Take(t, a))
    ensures var h, h', x := s.history, Do(c, s, Take(t, a)).history, s.tasks[t];
      var k, p := x.key, x.status;
      && h'.missed == (if p.Running? && p.at.Lookup? && a.Miss? then h.missed + multiset{k} else h.missed)
      && h'.permits == (if p.Running? && p.at.Acquiring? && a.Elect? && k !in s.inner then h.permits + multiset{k} else h.permits)
      && h'.nones == (if p.Running? && p.at.Waiting? && !a.Cancel? && p.at.eid in s.flights && s.flights[p.at.eid].result.None?
                      then h.nones + multiset{k} else h.nones)
  {
    hide Act, FlightInv, Count, SetSlot, Hold, WithChild, Touch;
    EntryKey(s, t);
    ActRecords(c, t, ViewOf(c, s, t), a);
  }

  /** The environment is free: any key may be evicted and any object written or
      removed at any time, and that is all such a step does. */
  lemma EnvironmentSteps(c: Config, s: State, k: Key, l: Loc, body: Option<Bytes>)
    ensures Enabled(c, s, Evict(k)) && Do(c, s, Evict(k)) == s.(cache := s.cache - {k})
    ensures Enabled(c, s, External(l, body))
    ensures var s' := Do(c, s, External(l, body));
      && SlotOf(s'.store, l) == body && (forall m :: m != l ==> SlotOf(s'.store, m) == SlotOf(s.store, m))
      && s'.(store := s.store, held := s.held) == s
  {}

  /** Whoever is fetching, as a leader or as a follower woken without a result, a
      fetch from a configured bucket can only be given up or call the store. */
  lemma FetchCallsTheStore(c: Config, r: Run, i: nat, t: Tid, o: Owner, a: Action)
    requires ValidRun(c, r) && i < |r.states| && t in r.states[i].tasks
    requires r.states[i].tasks[t].status == Running(Fetching(o)) && r.states[i].tasks[t].key.bucket in c.known
    ensures Enabled(c, r.states[i], Take(t, a)) <==> a.Cancel? || a.Go?
    ensures a.Go? ==>
      var s' := Do(c, r.states[i], Take(t, a));
      && t in s'.tasks && s'.tasks[t].status == Running(Getting(o))
      && s'.history.gets == r.states[i].history.gets + multiset{s'.tasks[t].key}
  {
    hide ValidRun, Do, Enabled;
    StepsAreExact(c, r, i, t, a);
    if a.Go? {
      WritesAreExact(c, r.states[i], t, a);
    }
  }

  // ----- Where an answer comes from -----

  predicate Takes(r: Run, m: nat, t: Tid, a: Action) {
    m < |r.steps| && m < |r.states| && r.steps[m] == Take(t, a) && t in r.states[m].tasks
  }

  /** In step `m` the store gave `t` the body. */
  predicate ReadIn(c: Config, r: Run, m: nat, t: Tid, body: Bytes) {
    && Takes(r, m, t, Go) && r.states[m].tasks[t].status.Running? && r.states[m].tasks[t].status.at.Getting?
    && SlotOf(r.states[m].store, c.loc(r.states[m].tasks[t].key)) == Some(body)
  }

  /** In step `m` the cache gave `t` the entry it was looking up. */
  predicate HitIn(r: Run, m: nat, t: Tid, entry: CacheEntry) {
    && Takes(r, m, t, Go) && r.states[m].tasks[t].status.Running?
    && (r.states[m].tasks[t].status.at.Lookup? || r.states[m].tasks[t].status.at.Relooking?)
    && SlotOf(r.states[m].cache, r.states[m].tasks[t].key) == Some(entry)
  }

  /** In step `m` the store described to `t` an object of size `n`; and if the HEAD
      asked for it, a prefetch of the key was spawned then and there. */
  predicate HeadIn(c: Config, r: Run, m: nat, t: Tid, n: nat) {
    m < |r.steps| && m + 1 < |r.states| && r.steps[m].Take? && r.steps[m].t == t && t in r.states[m].tasks &&
    var x, a := r.states[m].tasks[t], r.steps[m].a;
    && x.status == Running(Heading) && c.loc(x.key) in r.states[m].store && |r.states[m].store[c.loc(x.key)]| == n
    && (a.Spawn? || a.Go?) && (a.Spawn? <==> x.kind == Head(true))
    && (a.Spawn? ==>
          && a.child !in r.states[m].tasks && a.child in r.states[m + 1].tasks
          && r.states[m + 1].tasks[a.child] == Task(Prefetch, x.key, Running(Acquiring)))
  }

  ghost predicate ReadBefore(c: Config, r: Run, j: nat, t: Tid, body: Bytes) {
    exists m: nat :: m < j && ReadIn(c, r, m, t, body)
  }

  ghost predicate HitBefore(r: Run, j: nat, t: Tid, entry: CacheEntry) {
    exists m: nat :: m < j && HitIn(r, m, t, entry)
  }

  ghost predicate HeadBefore(c: Config, r: Run, j: nat, t: Tid, n: nat) {
    exists m: nat :: m < j && HeadIn(c, r, m, t, n)
  }

  /** A store call of `t` failed with `e`. */
  ghost predicate FailedBefore(r: Run, j: nat, t: Tid, e: StoreError) {
    exists m: nat :: m < j && Takes(r, m, t, Fail(e))
  }

  /** The error is the one a failed store call of `t` is answered with: not found if
      the object was, and otherwise a bad gateway. */
  ghost predicate StoreFailed(r: Run, j: nat, t: Tid, e: AppError) {
    || (e == NotFound && FailedBefore(r, j, t, Missing))
    || (e == BadGateway && FailedBefore(r, j, t, Upstream))
  }

  /** Why a fetch by `t` for `k` ended with `x`. */
  ghost predicate Explained(c: Config, r: Run, j: nat, t: Tid, k: Key, x: Fetched) {
    match x
    case Ok(entry) =>
      && k.bucket in c.known && ReadBefore(c, r, j, t, entry.bytes)
      && entry.contentType == Some(c.mime(k.path, entry.bytes))
    case Err(e) => if k.bucket !in c.known then e == UnknownBucket else StoreFailed(r, j, t, e)
  }

  ghost predicate PhaseExplained(c: Config, r: Run, j: nat, t: Tid, k: Key, p: Phase) {
    p.Lookup? || p.PutStarting? ||
    (!BadPath(k.path) &&
     match p
     case Getting(_) => k.bucket in c.known
     case Reading(_, b) => k.bucket in c.known && ReadBefore(c, r, j, t, b)
     case Inserting(_, b) => k.bucket in c.known && ReadBefore(c, r, j, t, b)
     case Completing(_, x) => Explained(c, r, j, t, k, x)
     case Releasing(_, x) => Explained(c, r, j, t, k, x)
     case PutOpening(_) => k.bucket in c.known
     case Streaming(_, _) => k.bucket in c.known
     case Aborting => k.bucket in c.known
     case Finishing(_, _) => k.bucket in c.known
     case Storing(_) => k.bucket in c.known
     case _ => true)
  }

  ghost predicate OutcomeExplained(c: Config, r: Run, j: nat, t: Tid, k: Key, o: Outcome) {
    && (o.Rejected? <==> BadPath(k.path))
    && match o
    case Hit(entry) => HitBefore(r, j, t, entry)
    case Rehit(_, entry) => HitBefore(r, j, t, entry)
    case Led(_, x) => Explained(c, r, j, t, k, x)
    case Fallback(_, x) => Explained(c, r, j, t, k, x)
    case HeadOk(n) => k.bucket in c.known && HeadBefore(c, r, j, t, n)
    case Early(e) => if k.bucket !in c.known then e == UnknownBucket else StoreFailed(r, j, t, e)
    case Uploaded(_) => k.bucket in c.known
    case Failed(e) => k.bucket in c.known && (e == BadBody || StoreFailed(r, j, t, e))
    case _ => true
  }

  ghost predicate StatusExplained(c: Config, r: Run, j: nat, t: Tid, k: Key, x: Status) {
    if x.Finished? then OutcomeExplained(c, r, j, t, k, x.outcome) else PhaseExplained(c, r, j, t, k, x.at)
  }

  // ----- Every step keeps the explanations -----

  lemma ExplainedLater(c: Config, r: Run, j: nat, t: Tid, k: Key, x: Status)
    requires StatusExplained(c, r, j, t, k, x)
    ensures StatusExplained(c, r, j + 1, t, k, x)
  {
    hide BadPath, ReadIn, HitIn, HeadIn, Takes;
  }

  lemma SpawnAct(c: Config, t: Tid, v: View, a: Action)
    ensures var e := Act(c, t, v, a); e.Some? && a.Spawn? ==> e.value.spawn == Some(a.child)
  {
    hide ValidPath, Feed;
  }

  lemma SpawnsChild(c: Config, s: State, t: Tid, child: Tid)
    requires Enabled(c, s, Take(t, Spawn(child)))
    ensures var s' := Do(c, s, Take(t, Spawn(child)));
      child !in s.tasks && child in s'.tasks && s'.tasks[child] == Task(Prefetch, s.tasks[t].key, Running(Acquiring))
  {
    hide Act;
    SpawnAct(c, t, ViewOf(c, s, t), Spawn(child));
  }

  lemma FailureRecorded(r: Run, j: nat, t: Tid, e: StoreError)
    requires Takes(r, j, t, Fail(e))
    ensures StoreFailed(r, j + 1, t, StoreAnswer(e))
  {}

  lemma PhaseStep(c: Config, r: Run, j: nat, t: Tid, a: Action)
    requires Takes(r, j, t, a) && r.states[j].tasks[t].status.Running? && !a.Cancel?
    requires var x := r.states[j].tasks[t];
      PhaseExplained(c, r, j, t, x.key, x.status.at) && PossibleAt(c, r.states[j], t, x, x.status.at, a)
    requires var p := r.states[j].tasks[t].status.at; FetchPhase(p) || p.Completing? || p.Releasing?
    ensures var x := r.states[j].tasks[t];
      StatusExplained(c, r, j + 1, t, x.key, BecomesAt(c, r.states[j], x, x.status.at, a))
  {
    hide BadPath, HitIn, HeadIn;
    var x, s := r.states[j].tasks[t], r.states[j];
    ExplainedLater(c, r, j, t, x.key, x.status);
    if a.Fail? {
      FailureRecorded(r, j, t, a.error);
    }
    if x.status.at.Getting? && a.Go? {
      assert ReadIn(c, r, j, t, s.store[c.loc(x.key)]);
    }
    hide ReadIn, StoreFailed;
  }

  lemma OtherPhaseStep(c: Config, r: Run, j: nat, t: Tid, a: Action)
    requires Takes(r, j, t, a) && r.states[j].tasks[t].status.Running? && !a.Cancel?
    requires var x := r.states[j].tasks[t];
      PhaseExplained(c, r, j, t, x.key, x.status.at) && PossibleAt(c, r.states[j], t, x, x.status.at, a)
    requires var p := r.states[j].tasks[t].status.at; !FetchPhase(p) && !p.Completing? && !p.Releasing?
    requires a.Spawn? ==>
      && j + 1 < |r.states| && a.child !in r.states[j].tasks && a.child in r.states[j + 1].tasks
      && r.states[j + 1].tasks[a.child] == Task(Prefetch, r.states[j].tasks[t].key, Running(Acquiring))
    requires j + 1 < |r.states|
    ensures var x := r.states[j].tasks[t];
      StatusExplained(c, r, j + 1, t, x.key, BecomesAt(c, r.states[j], x, x.status.at, a))
  {
    hide BadPath, ReadIn, Feed, FeedAll;
    var x, s := r.states[j].tasks[t], r.states[j];
    if a.Fail? {
      FailureRecorded(r, j, t, a.error);
    }
    if (x.status.at.Lookup? || x.status.at.Relooking?) && a.Go? && x.key in s.cache {
      assert HitIn(r, j, t, s.cache[x.key]);
    }
    if x.status.at.Heading? && !a.Fail? && x.key.bucket in c.known {
      assert HeadIn(c, r, j, t, |s.store[c.loc(x.key)]|);
    }
    hide HitIn, HeadIn, StoreFailed;
  }

  lemma StepExplained(c: Config, r: Run, j: nat, t: Tid, a: Action)
    requires ValidRun(c, r) && j < |r.steps| && r.steps[j] == Take(t, a)
    requires FlightInv(r.states[j]) && LedgerInv(r.states[j]) && t in r.states[j].tasks
    requires StatusExplained(c, r, j, t, r.states[j].tasks[t].key, r.states[j].tasks[t].status)
    ensures t in r.states[j + 1].tasks && r.states[j + 1].tasks[t].key == r.states[j].tasks[t].key
    ensures StatusExplained(c, r, j + 1, t, r.states[j].tasks[t].key, r.states[j + 1].tasks[t].status)
  {
    hide FlightInv, LedgerInv, Do, PossibleAt, BecomesAt, StatusExplained;
    var s, x := r.states[j], r.states[j].tasks[t];
    assert Enabled(c, s, Take(t, a));
    if a.Spawn? {
      SpawnsChild(c, s, t, a.child);
    }
    StepMeans(c, s, t, a);
    hide ValidRun, Enabled;
    if x.status.Running? && !a.Cancel? {
      StillPhase(c, r, j, t, x.key, x.status);
      if FetchPhase(x.status.at) || x.status.at.Completing? || x.status.at.Releasing? {
        PhaseStep(c, r, j, t, a);
      } else {
        OtherPhaseStep(c, r, j, t, a);
      }
    } else {
      GivenUpExplained(c, r, j, t, x.key, x.status, Becomes(c, s, t, a));
    }
  }

  lemma StillPhase(c: Config, r: Run, j: nat, t: Tid, k: Key, x: Status)
    requires StatusExplained(c, r, j, t, k, x) && !x.Finished?
    ensures PhaseExplained(c, r, j, t, k, x.at)
  {}

  lemma GivenUpExplained(c: Config, r: Run, j: nat, t: Tid, k: Key, x: Status, y: Status)
    requires StatusExplained(c, r, j, t, k, x) && !x.Finished? && !y.Finished? && y.at == x.at
    ensures StatusExplained(c, r, j + 1, t, k, y)
  {
    ExplainedLater(c, r, j, t, k, x);
    hide PhaseExplained;
  }

  /** Who is new after a step: a request that arrived, or the prefetch a HEAD with a
      good path spawned. */
  lemma NewTask(c: Config, s: State, step: Step, t: Tid)
    requires Enabled(c, s, step) && t !in s.tasks && t in Do(c, s, step).tasks
    ensures var x := Do(c, s, step).tasks[t];
      || (step.Arrive? && step.t == t && x == Task(step.kind, step.key,
            Running(if step.kind.Put? then PutStarting(step.stream) else Lookup)))
      || (step.Take? && step.a == Spawn(t) && step.t in s.tasks && x == Task(Prefetch, s.tasks[step.t].key, Running(Acquiring)))
  {
    hide Act;
    if step.Take? {
      SpawnIsNew(c, step.t, ViewOf(c, s, step.t), step.a);
    }
  }

  lemma ParentHasGoodPath(c: Config, r: Run, j: nat, p: Tid, child: Tid)
    requires ValidRun(c, r) && j < |r.steps| && r.steps[j] == Take(p, Spawn(child))
    requires FlightInv(r.states[j]) && LedgerInv(r.states[j]) && p in r.states[j].tasks
    requires StatusExplained(c, r, j, p, r.states[j].tasks[p].key, r.states[j].tasks[p].status)
    ensures !BadPath(r.states[j].tasks[p].key.path)
  {
    hide FlightInv, LedgerInv, BadPath, Do, BecomesAt;
    assert Enabled(c, r.states[j], Take(p, Spawn(child)));
    StepMeans(c, r.states[j], p, Spawn(child));
  }

  lemma NewExplained(c: Config, r: Run, j: nat, t: Tid, x: Task)
    requires x.status == Running(Lookup) || (x.status.Running? && x.status.at.PutStarting?)
             || (x.status == Running(Acquiring) && !BadPath(x.key.path))
    ensures StatusExplained(c, r, j, t, x.key, x.status)
  {
    hide BadPath;
  }

  /** In every reachable state every task's answer, or what it has so far of one, is
      explained. */
  lemma {:induction false} AnswersAreExplained(c: Config, r: Run, j: nat, t: Tid)
    requires ValidRun(c, r) && j < |r.states| && t in r.states[j].tasks
    ensures StatusExplained(c, r, j, t, r.states[j].tasks[t].key, r.states[j].tasks[t].status)
    decreases j
  {
    hide FlightInv, LedgerInv, Enabled, Do, StatusExplained;
    if j > 0 {
      hide Init;
      var s, step := r.states[j - 1], r.steps[j - 1];
      RunKeeps(c, r, j - 1);
      RunBalances(c, r, j - 1);
      if t !in s.tasks {
        NewTask(c, s, step, t);
        if step.Take? {
          AnswersAreExplained(c, r, j - 1, step.t);
          ParentHasGoodPath(c, r, j - 1, step.t, t);
        }
        NewExplained(c, r, j, t, r.states[j].tasks[t]);
      } else {
        AnswersAreExplained(c, r, j - 1, t);
        if step.Take? && step.t == t {
          StepExplained(c, r, j - 1, t, step.a);
        } else {
          OthersStay(c, s, step, t);
          ExplainedLater(c, r, j - 1, t, s.tasks[t].key, s.tasks[t].status);
        }
      }
    }
  }

  // ----- What it says of requests -----

  lemma StepKeepsKey(c: Config, s: State, step: Step, t: Tid)
    requires Enabled(c, s, step) && t in s.tasks
    ensures var s' := Do(c, s, step);
      t in s'.tasks && s'.tasks[t].key == s.tasks[t].key && s'.tasks[t].kind == s.tasks[t].kind
  {
    hide Enabled, Do, Act;
    if step.Take? && step.t == t {
      OwnStep(c, s, t, step.a);
    } else {
      OthersStay(c, s, step, t);
    }
  }

  lemma {:induction false} KeyStays(c: Config, r: Run, m: nat, j: nat, t: Tid)
    requires ValidRun(c, r) && m <= j < |r.states| && t in r.states[m].tasks
    ensures t in r.states[j].tasks
    ensures r.states[j].tasks[t].key == r.states[m].tasks[t].key && r.states[j].tasks[t].kind == r.states[m].tasks[t].kind
  {
    hide Enabled, Do, Init;
    if m < j {
      KeyStays(c, r, m, j - 1, t);
      StepKeepsKey(c, r.states[j - 1], r.steps[j - 1], t);
    }
  }

  lemma ArrivedStays(c: Config, r: Run, h: nat, j: nat, t: Tid)
    requires ValidRun(c, r) && h < |r.steps| && r.steps[h].Arrive? && r.steps[h].t == t && h < j < |r.states|
    ensures t in r.states[j].tasks
    ensures r.states[j].tasks[t].key == r.steps[h].key && r.states[j].tasks[t].kind == r.steps[h].kind
  {
    hide Init;
    assert t in r.states[h + 1].tasks;
    hide Enabled, Do;
    KeyStays(c, r, h + 1, j, t);
  }

  /** A request is answered as rejected only if its path is empty, absolute or has two
      dots in a row; and one with such a path never gets past its first phase, so it
      neither looks up nor reads, commits or inserts anything. */
  lemma RejectedExactlyBadPaths(c: Config, r: Run, h: nat, j: nat, t: Tid)
    requires ValidRun(c, r) && h < |r.steps| && r.steps[h].Arrive? && r.steps[h].t == t && h < j < |r.states|
    ensures t in r.states[j].tasks
    ensures var path, x := r.steps[h].key.path, r.states[j].tasks[t].status;
      && (x == Finished(Rejected) ==>
            path == "" || path[0] == '/' || exists a: string, b: string :: Cut(path, a, b))
      && (path == "" || path[0] == '/' || (exists a: string, b: string :: Cut(path, a, b)) ==>
            || x == Finished(Rejected)
            || (!x.Finished? && !x.Dropping? && (x.at.Lookup? || x.at.PutStarting?)))
  {
    ArrivedStays(c, r, h, j, t);
    AnswersAreExplained(c, r, j, t);
    RunBalances(c, r, j);
    assert Typed(r.states[j].tasks[t]);
    hide ValidRun, LedgerInv, PhaseExplained;
    StatusHasGoodPath(c, r, j, t, r.steps[h].key, r.states[j].tasks[t].status);
  }

  lemma StatusHasGoodPath(c: Config, r: Run, j: nat, t: Tid, k: Key, x: Status)
    requires StatusExplained(c, r, j, t, k, x)
    ensures x.Finished? ==> (x.outcome.Rejected? <==> BadPath(k.path))
    ensures !x.Finished? && !x.at.Lookup? && !x.at.PutStarting? ==> !BadPath(k.path)
  {
    hide BadPath;
  }

  /** An upload to a bucket that is not configured never gets to open one, never
      commits and is never acknowledged. */
  lemma UnknownBucketIsNeverWritten(c: Config, r: Run, j: nat, t: Tid)
    requires ValidRun(c, r) && j < |r.states| && t in r.states[j].tasks && r.states[j].tasks[t].kind.Put?
    requires r.states[j].tasks[t].key.bucket !in c.known
    ensures !Enabled(c, r.states[j], Take(t, Commit))
    ensures var x := r.states[j].tasks[t].status;
      if x.Finished? then x.outcome == Rejected || x.outcome == Early(UnknownBucket) else x.at.PutStarting?
  {
    AnswersAreExplained(c, r, j, t);
    RunKeeps(c, r, j);
    RunBalances(c, r, j);
    assert Typed(r.states[j].tasks[t]);
    StepMeans(c, r.states[j], t, Commit);
    hide ValidRun, FlightInv, LedgerInv, Enabled, Do, BadPath;
  }

  /** A HEAD that is answered from the store had a good path and a configured bucket,
      and its size is that of the object the store held in the answering step; if it
      asked for a prefetch, that very step spawned one. */
  lemma HeadAnswersTheSize(c: Config, r: Run, j: nat, t: Tid)
    requires ValidRun(c, r) && j < |r.states| && t in r.states[j].tasks
    requires r.states[j].tasks[t].status.Finished? && r.states[j].tasks[t].status.outcome.HeadOk?
    ensures var k, n := r.states[j].tasks[t].key, r.states[j].tasks[t].status.outcome.size;
      !BadPath(k.path) && k.bucket in c.known && HeadBefore(c, r, j, t, n)
  {
    AnswersAreExplained(c, r, j, t);
    hide ValidRun, BadPath, HeadBefore;
  }

  /** Over write-once objects that size is the length of a direct read, then and later. */
  lemma HeadSizeIsDirectRead(c: Config, r: Run, i: nat, j: nat, t: Tid)
    requires ValidRun(c, r) && WriteOnce(r) && i <= j < |r.states| && t in r.states[i].tasks
    requires r.states[i].tasks[t].status.Finished? && r.states[i].tasks[t].status.outcome.HeadOk?
    ensures var body := DirectRead(c, r.states[j], r.states[i].tasks[t].key);
      body.Some? && |body.value| == r.states[i].tasks[t].status.outcome.size
  {
    HeadAnswersTheSize(c, r, i, t);
    var n := r.states[i].tasks[t].status.outcome.size;
    var m: nat :| m < i && HeadIn(c, r, m, t, n);
    KeyStays(c, r, m, i, t);
    hide ValidRun, WriteOnce;
    WriteOnceLasts(r, m, j, c.loc(r.states[i].tasks[t].key));
  }

  /** The task whose fetch `t` is answered from: its own, or its leader. */
  predicate FetchesFor(s: State, t: Tid, u: Tid)
    requires t in s.tasks
  {
    var x := s.tasks[t].status;
    u == t || (x.Finished? && x.outcome.Shared? && x.outcome.eid in s.flights && s.flights[x.outcome.eid].leader == u)
  }

  /** What a follower is answered with from its leader is explained by the leader. */
  lemma SharedIsExplained(c: Config, r: Run, j: nat, t: Tid)
    returns (u: Tid)
    requires ValidRun(c, r) && j < |r.states| && t in r.states[j].tasks
    requires r.states[j].tasks[t].status.Finished? && r.states[j].tasks[t].status.outcome.Shared?
    ensures FetchesFor(r.states[j], t, u)
    ensures Explained(c, r, j, u, r.states[j].tasks[t].key, r.states[j].tasks[t].status.outcome.result)
  {
    hide FlightInv, StatusExplained, Explained;
    var s, e := r.states[j], r.states[j].tasks[t].status.outcome.eid;
    RunKeeps(c, r, j);
    ToldIsTheResult(s, t, e);
    u := s.flights[e].leader;
    LeaderStatus(s.tasks[u]);
    RoleEntry(s.tasks[u]);
    AnswersAreExplained(c, r, j, u);
    LedIsExplained(c, r, j, u, s.tasks[u].key, s.tasks[u].status, e, s.tasks[t].status.outcome.result);
  }

  lemma LedIsExplained(c: Config, r: Run, j: nat, u: Tid, k: Key, x: Status, e: Eid, y: Fetched)
    requires StatusExplained(c, r, j, u, k, x)
    requires x == Finished(Led(e, y)) || x == Cancelled(Releasing(e, y))
    ensures Explained(c, r, j, u, k, y)
  {
    hide Explained, BadPath;
  }

  /** A store call made for `t`, by itself or by its leader, failed. */
  ghost predicate ItsCallFailed(r: Run, j: nat, t: Tid)
    requires j < |r.states| && t in r.states[j].tasks
  {
    exists u: Tid :: CallFailed(r, j, t, u)
  }

  ghost predicate CallFailed(r: Run, j: nat, t: Tid, u: Tid)
    requires j < |r.states| && t in r.states[j].tasks
  {
    FetchesFor(r.states[j], t, u) && (FailedBefore(r, j, u, Missing) || FailedBefore(r, j, u, Upstream))
  }

  lemma ExplainedOrFailed(c: Config, r: Run, j: nat, t: Tid, u: Tid, k: Key, x: Fetched)
    requires j < |r.states| && t in r.states[j].tasks && FetchesFor(r.states[j], t, u)
    requires Explained(c, r, j, u, k, x) && k.bucket in c.known
    ensures x.Ok? || ItsCallFailed(r, j, t)
  {
    if x.Err? {
      assert CallFailed(r, j, t, u);
    }
  }

  /** A GET with a good path and a configured bucket that is answered is answered with
      a body, unless a store call made for it failed: its own, or its leader's. */
  lemma GetIsServed(c: Config, r: Run, j: nat, t: Tid)
    requires ValidRun(c, r) && j < |r.states| && t in r.states[j].tasks && r.states[j].tasks[t].kind.Get?
    requires r.states[j].tasks[t].status.Finished?
    requires !BadPath(r.states[j].tasks[t].key.path) && r.states[j].tasks[t].key.bucket in c.known
    ensures Served(r.states[j].tasks[t].status.outcome).Some? || ItsCallFailed(r, j, t)
  {
    AnswersAreExplained(c, r, j, t);
    RunBalances(c, r, j);
    assert Typed(r.states[j].tasks[t]);
    var x := r.states[j].tasks[t];
    if x.status.outcome.Shared? {
      var u := SharedIsExplained(c, r, j, t);
      hide ValidRun, LedgerInv, ItsCallFailed, Explained, BadPath;
      ExplainedOrFailed(c, r, j, t, u, x.key, x.status.outcome.result);
    } else {
      hide ValidRun, LedgerInv, ItsCallFailed, Explained, BadPath;
      if x.status.outcome.Led? || x.status.outcome.Fallback? {
        ExplainedOrFailed(c, r, j, t, t, x.key, x.status.outcome.result);
      }
    }
  }

  /** Over write-once objects a GET with a good path and a configured bucket is answered
      exactly as a direct read of the store would be, then and later, unless a store
      call made for it failed. */
  lemma GetIsADirectRead(c: Config, r: Run, i: nat, j: nat, t: Tid)
    requires ValidRun(c, r) && WriteOnce(r) && i <= j < |r.states|
    requires t in r.states[i].tasks && r.states[i].tasks[t].kind.Get? && r.states[i].tasks[t].status.Finished?
    requires !BadPath(r.states[i].tasks[t].key.path) && r.states[i].tasks[t].key.bucket in c.known
    ensures || ItsCallFailed(r, i, t)
            || (&& Served(r.states[i].tasks[t].status.outcome).Some?
                && DirectRead(c, r.states[j], r.states[i].tasks[t].key) == Served(r.states[i].tasks[t].status.outcome))
  {
    hide ItsCallFailed, BadPath, WriteOnce;
    GetIsServed(c, r, i, t);
    if Served(r.states[i].tasks[t].status.outcome).Some? {
      ServiceRefinesDirectRead(c, r, i, j, t);
    }
  }
}
