/** Runs in which something goes wrong, so that the conditions under which it does
    are known to be met: lost wake-ups, and caches left behind the store. No task is
    cancelled in them, no store call fails, nothing is evicted and nobody else writes. */
module Witnesses {
  import opened Prelude
  import opened Slots
  import opened Uploads
  import opened Service
  import opened Flights
  import opened SingleFlight
  import opened Provenance
  import opened Requests
  import opened Coherence
  import opened Drain

  // ----- Scenes: what two tasks on one key see -----

  /** Tasks 0 and 1, the slots of their key, entry 0 and the stored object. */
  datatype Scene = Scene(
    first: Option<Task>,
    second: Option<Task>,
    cached: Option<CacheEntry>,
    current: Option<Eid>,
    flight: Option<Flight>,
    stored: Option<Bytes>)

  predicate Shows(c: Config, k: Key, s: State, g: Scene) {
    && (forall t :: t in s.tasks ==> t < 2 && s.tasks[t].key == k)
    && (forall e :: e in s.flights ==> e < 1)
    && SlotOf(s.tasks, 0) == g.first && SlotOf(s.tasks, 1) == g.second
    && SlotOf(s.cache, k) == g.cached && SlotOf(s.inner, k) == g.current
    && SlotOf(s.flights, 0) == g.flight && SlotOf(s.store, c.loc(k)) == g.stored
  }

  function Cast(g: Scene, t: Tid): Option<Task> {
    if t == 0 then g.first else if t == 1 then g.second else None
  }

  function SceneView(g: Scene, t: Tid): View
    requires Cast(g, t).Some?
  {
    var x := Cast(g, t).value;
    View(x, g.cached, g.current, if EntryOf(x.status) == Some(0) then g.flight else None, g.stored)
  }

  function WithTask(g: Scene, t: Tid, x: Task): Scene {
    if t == 0 then g.(first := Some(x)) else g.(second := Some(x))
  }

  /** The scene with task `t` at `x`. */
  function With(g: Scene, t: Tid, x: Status): Scene
    requires Cast(g, t).Some?
  {
    WithTask(g, t, Cast(g, t).value.(status := x))
  }

  function After(g: Scene, t: Tid, e: Effect): Scene
    requires Cast(g, t).Some?
  {
    With(g, t, e.status).(
      cached := e.cached, current := e.current, stored := e.stored,
      flight := if e.flight.Some? then Some(e.flight.value.1) else g.flight)
  }

  predicate CalmAction(a: Action) {
    !a.Cancel? && !a.Fail? && !a.Spawn?
  }

  predicate Calm(step: Step) {
    step.Arrive? || (step.Take? && CalmAction(step.a))
  }

  predicate FreshIn(g: Scene, a: Action) {
    a.Elect? ==> a.id > 0 || g.flight.None?
  }

  /** Task `t` can do `a`, and `g'` is what that leads to. */
  predicate Moves(c: Config, g: Scene, t: Tid, a: Action, g': Scene) {
    && Cast(g, t).Some? && CalmAction(a) && FreshIn(g, a)
    && (EntryOf(Cast(g, t).value.status).Some? ==> EntryOf(Cast(g, t).value.status) == Some(0))
    && var e := Act(c, t, SceneView(g, t), a);
       && e.Some? && e.value.spawn.None? && (e.value.flight.Some? ==> e.value.flight.value.0 == 0)
       && g' == After(g, t, e.value)
  }

  lemma ApplyShows(c: Config, k: Key, s: State, g: Scene, t: Tid, e: Effect)
    requires Shows(c, k, s, g) && Cast(g, t).Some? && e.spawn.None? && (e.flight.Some? ==> e.flight.value.0 == 0)
    ensures t in s.tasks && Shows(c, k, Apply(c, s, t, e), After(g, t, e))
  {
    hide Count, Record, Hold;
  }

  lemma SceneIsView(c: Config, k: Key, s: State, g: Scene, t: Tid)
    requires Shows(c, k, s, g) && Cast(g, t).Some?
    requires EntryOf(Cast(g, t).value.status).Some? ==> EntryOf(Cast(g, t).value.status) == Some(0)
    ensures t in s.tasks && ViewOf(c, s, t) == SceneView(g, t)
  {}

  lemma FreshInScene(c: Config, k: Key, s: State, g: Scene, a: Action)
    requires Shows(c, k, s, g) && FreshIn(g, a) && CalmAction(a)
    ensures FreshIds(s, a)
  {}

  lemma MoveShows(c: Config, k: Key, s: State, g: Scene, t: Tid, a: Action, g': Scene)
    requires Shows(c, k, s, g) && Moves(c, g, t, a, g')
    ensures Enabled(c, s, Take(t, a)) && Shows(c, k, Do(c, s, Take(t, a)), g')
  {
    hide Act, Apply, Shows, FreshIds;
    SceneIsView(c, k, s, g, t);
    FreshInScene(c, k, s, g, a);
    ApplyShows(c, k, s, g, t, Act(c, t, SceneView(g, t), a).value);
  }

  lemma EnterShows(c: Config, k: Key, s: State, g: Scene, t: Tid, kind: Kind, stream: seq<Chunk>)
    requires Shows(c, k, s, g) && t < 2 && Cast(g, t).None? && !kind.Prefetch?
    ensures Enabled(c, s, Arrive(t, kind, k, stream))
    ensures Shows(c, k, Do(c, s, Arrive(t, kind, k, stream)), WithTask(g, t, Task(kind, k, Running(FirstPhase(kind, stream)))))
  {}

  /** A calm run from `s0` that has led to `g`. */
  predicate Playing(c: Config, k: Key, s0: State, r: Run, g: Scene) {
    && ValidRun(c, r) && r.states[0] == s0
    && (forall i :: 0 <= i < |r.steps| ==> Calm(r.steps[i]))
    && Shows(c, k, r.states[|r.steps|], g)
  }

  function Extended(c: Config, r: Run, step: Step): Run
    requires |r.states| == |r.steps| + 1 && Enabled(c, r.states[|r.steps|], step)
  {
    Run(r.states + [Do(c, r.states[|r.steps|], step)], r.steps + [step])
  }

  lemma ExtendedIsValid(c: Config, r: Run, step: Step)
    requires ValidRun(c, r) && Enabled(c, r.states[|r.steps|], step)
    ensures var q := Extended(c, r, step);
      && ValidRun(c, q) && q.states[0] == r.states[0] && q.steps == r.steps + [step]
      && q.states[|q.steps|] == Do(c, r.states[|r.steps|], step)
  {
    hide Enabled, Do;
  }

  lemma Play(c: Config, k: Key, s0: State, r: Run, g: Scene, t: Tid, a: Action, g': Scene) returns (q: Run)
    requires Playing(c, k, s0, r, g) && Moves(c, g, t, a, g')
    ensures Playing(c, k, s0, q, g')
  {
    MoveShows(c, k, r.states[|r.steps|], g, t, a, g');
    assert CalmAction(a);
    hide Enabled, Do, Shows, Moves, CalmAction;
    ExtendedIsValid(c, r, Take(t, a));
    hide ValidRun;
    q := Extended(c, r, Take(t, a));
  }

  lemma Enter(c: Config, k: Key, s0: State, r: Run, g: Scene, t: Tid, kind: Kind, stream: seq<Chunk>) returns (q: Run)
    requires Playing(c, k, s0, r, g) && t < 2 && Cast(g, t).None? && !kind.Prefetch?
    ensures Playing(c, k, s0, q, WithTask(g, t, Task(kind, k, Running(FirstPhase(kind, stream)))))
  {
    EnterShows(c, k, r.states[|r.steps|], g, t, kind, stream);
    hide Enabled, Do, Shows;
    ExtendedIsValid(c, r, Arrive(t, kind, k, stream));
    hide ValidRun;
    q := Extended(c, r, Arrive(t, kind, k, stream));
  }

  function Opening(c: Config, k: Key, s0: State): Scene {
    Scene(None, None, SlotOf(s0.cache, k), None, None, SlotOf(s0.store, c.loc(k)))
  }

  lemma Begin(c: Config, k: Key, s0: State) returns (r: Run)
    requires Init(c, s0)
    ensures Playing(c, k, s0, r, Opening(c, k, s0))
  {
    r := Run([s0], []);
  }

  // ----- Moves -----

  predicate At(g: Scene, t: Tid, x: Status) {
    Cast(g, t).Some? && Cast(g, t).value.status == x
  }

  /** The next phase, with nothing else changed. */
  lemma PhaseMoves(c: Config, g: Scene, t: Tid, a: Action, p: Phase, q: Phase)
    requires At(g, t, Running(p)) && CalmAction(a) && !a.Elect? && (EntryAt(p).Some? ==> EntryAt(p) == Some(0))
    requires var e := ActRunning(c, t, SceneView(g, t), p, a);
      e.Some? && e.value == To(SceneView(g, t), Running(q), e.value.emit)
    ensures Moves(c, g, t, a, With(g, t, Running(q)))
  {
    hide ActRunning;
  }

  lemma MissMoves(c: Config, g: Scene, t: Tid)
    requires At(g, t, Running(Lookup)) && Cast(g, t).value.kind.Get? && ValidPath(Cast(g, t).value.key.path)
    ensures Moves(c, g, t, Miss, With(g, t, Running(Acquiring)))
  {
    PhaseMoves(c, g, t, Miss, Lookup, Acquiring);
  }

  /** The entry of a new leader. */
  function NewFlight(k: Key, t: Tid): Flight {
    Flight(k, t, None, {}, {}, 0, 0)
  }

  lemma LeadMoves(c: Config, g: Scene, t: Tid)
    requires At(g, t, Running(Acquiring)) && g.current.None? && g.flight.None?
    ensures Moves(c, g, t, Elect(0),
      With(g, t, Running(Fetching(Guard(0)))).(current := Some(0), flight := Some(NewFlight(Cast(g, t).value.key, t))))
  {}

  lemma JoinMoves(c: Config, g: Scene, t: Tid)
    requires At(g, t, Running(Acquiring)) && Cast(g, t).value.kind.Get? && g.current == Some(0)
    ensures Moves(c, g, t, Elect(1), With(g, t, Running(Registering(0))))
  {}

  lemma FetchMoves(c: Config, g: Scene, t: Tid)
    requires At(g, t, Running(Fetching(Guard(0))))
    ensures var next := if Cast(g, t).value.key.bucket in c.known then Getting(Guard(0)) else Completing(0, Err(UnknownBucket));
      Moves(c, g, t, Go, With(g, t, Running(next)))
  {
    PhaseMoves(c, g, t, Go, Fetching(Guard(0)),
      if Cast(g, t).value.key.bucket in c.known then Getting(Guard(0)) else Completing(0, Err(UnknownBucket)));
  }

  lemma GetMoves(c: Config, g: Scene, t: Tid, b: Bytes)
    requires At(g, t, Running(Getting(Guard(0)))) && g.stored == Some(b)
    ensures Moves(c, g, t, Go, With(g, t, Running(Reading(Guard(0), b))))
  {
    PhaseMoves(c, g, t, Go, Getting(Guard(0)), Reading(Guard(0), b));
  }

  lemma ReadMoves(c: Config, g: Scene, t: Tid, b: Bytes)
    requires At(g, t, Running(Reading(Guard(0), b)))
    ensures var next :=
        if Admitted(c.cap, b) then Inserting(Guard(0), b) else Completing(0, Ok(FetchedEntry(c, Cast(g, t).value.key, b)));
      Moves(c, g, t, Go, With(g, t, Running(next)))
  {
    PhaseMoves(c, g, t, Go, Reading(Guard(0), b),
      if Admitted(c.cap, b) then Inserting(Guard(0), b) else Completing(0, Ok(FetchedEntry(c, Cast(g, t).value.key, b))));
  }

  lemma InsertMoves(c: Config, g: Scene, t: Tid, b: Bytes)
    requires At(g, t, Running(Inserting(Guard(0), b)))
    ensures var entry := FetchedEntry(c, Cast(g, t).value.key, b);
      Moves(c, g, t, Go, With(g, t, Running(Completing(0, Ok(entry)))).(cached := Some(entry)))
  {}

  lemma WriteMoves(c: Config, g: Scene, t: Tid, r: Fetched)
    requires At(g, t, Running(Completing(0, r))) && g.flight.Some?
    ensures Moves(c, g, t, Go, With(g, t, Running(Releasing(0, r))).(flight := Some(Filled(g.flight.value, r))))
  {}

  lemma ReleaseMoves(c: Config, g: Scene, t: Tid, r: Fetched)
    requires At(g, t, Running(Releasing(0, r))) && g.current == Some(0) && g.flight.Some?
    ensures Moves(c, g, t, Go,
      With(g, t, Finished(Led(0, r))).(current := None, flight := Some(Released(g.flight.value))))
  {}

  lemma RegisterMoves(c: Config, g: Scene, t: Tid)
    requires At(g, t, Running(Registering(0))) && g.flight.Some?
    ensures Moves(c, g, t, Go,
      With(g, t, Running(Waiting(0, g.flight.value.releases == 0))).(flight := Some(Joined(g.flight.value, t))))
  {}

  /** An upload of one chunk, up to where it is complete. */
  function UploadPhase(c: Config, body: Bytes, n: nat): Phase
    requires n < 5
  {
    match n
    case 0 => PutStarting([Data(body)])
    case 1 => PutOpening([Data(body)])
    case 2 => Streaming([Data(body)], Start(c.cap))
    case 3 => Streaming([], Fed(c, body))
    case 4 => Finishing(Fed(c, body), false)
  }

  function Fed(c: Config, body: Bytes): Upload {
    Feed(c.cap, c.max, Start(c.cap), body)
  }

  lemma FedIs(c: Config, body: Bytes)
    ensures var u := Fed(c, body);
      u.sent == body && (Admitted(c.cap, body) ==> !u.capped && u.buffer == body) && (|body| > c.cap ==> u.capped)
  {}

  lemma UploadMoves(c: Config, g: Scene, t: Tid, body: Bytes, n: nat)
    requires n < 4 && At(g, t, Running(UploadPhase(c, body, n)))
    requires ValidPath(Cast(g, t).value.key.path) && Cast(g, t).value.key.bucket in c.known
    ensures Moves(c, g, t, Go, With(g, t, Running(UploadPhase(c, body, n + 1))))
  {
    assert [Data(body)][1..] == [];
    PhaseMoves(c, g, t, Go, UploadPhase(c, body, n), UploadPhase(c, body, n + 1));
  }

  lemma CommitMoves(c: Config, g: Scene, t: Tid, u: Upload)
    requires At(g, t, Running(Finishing(u, false)))
    ensures Moves(c, g, t, Commit, With(g, t, Running(Finishing(u, true))).(stored := Some(u.sent)))
  {}

  lemma AckMoves(c: Config, g: Scene, t: Tid, u: Upload)
    requires At(g, t, Running(Finishing(u, true)))
    ensures Moves(c, g, t, Go, With(g, t, if u.capped then Finished(Uploaded(u.total)) else Running(Storing(u))))
  {}

  lemma StoreMoves(c: Config, g: Scene, t: Tid, u: Upload)
    requires At(g, t, Running(Storing(u))) && Cast(g, t).value.kind.Put?
    ensures Moves(c, g, t, Go,
      With(g, t, Finished(Uploaded(u.total))).(cached := Some(CacheEntry(u.buffer, Cast(g, t).value.kind.contentType))))
  {}

  // ----- Stretches of a run -----

  lemma {:induction false} PlayUpload(c: Config, k: Key, s0: State, r: Run, g: Scene, t: Tid, body: Bytes, n: nat) returns (q: Run)
    requires Playing(c, k, s0, r, g) && t < 2 && Cast(g, t).None? && n < 5
    requires ValidPath(k.path) && k.bucket in c.known
    ensures Playing(c, k, s0, q, WithTask(g, t, Task(Put(None), k, Running(UploadPhase(c, body, n)))))
  {
    hide Playing, Moves;
    if n == 0 {
      q := Enter(c, k, s0, r, g, t, Put(None), [Data(body)]);
    } else {
      q := PlayUpload(c, k, s0, r, g, t, body, n - 1);
      var h := WithTask(g, t, Task(Put(None), k, Running(UploadPhase(c, body, n - 1))));
      UploadMoves(c, h, t, body, n - 1);
      hide UploadPhase;
      q := Play(c, k, s0, q, h, t, Go, With(h, t, Running(UploadPhase(c, body, n))));
    }
  }

  /** A commit that is acknowledged. */
  lemma PlayCommit(c: Config, k: Key, s0: State, r: Run, g: Scene, t: Tid, u: Upload) returns (q: Run)
    requires Playing(c, k, s0, r, g) && At(g, t, Running(Finishing(u, false)))
    ensures Playing(c, k, s0, q,
      With(g, t, if u.capped then Finished(Uploaded(u.total)) else Running(Storing(u))).(stored := Some(u.sent)))
  {
    hide Playing, Moves;
    CommitMoves(c, g, t, u);
    var h := With(g, t, Running(Finishing(u, true))).(stored := Some(u.sent));
    q := Play(c, k, s0, r, g, t, Commit, h);
    AckMoves(c, h, t, u);
    q := Play(c, k, s0, q, h, t, Go, With(h, t, if u.capped then Finished(Uploaded(u.total)) else Running(Storing(u))));
  }

  lemma PlayStore(c: Config, k: Key, s0: State, r: Run, g: Scene, t: Tid, u: Upload) returns (q: Run)
    requires Playing(c, k, s0, r, g) && At(g, t, Running(Storing(u))) && Cast(g, t).value.kind == Put(None)
    ensures Playing(c, k, s0, q, With(g, t, Finished(Uploaded(u.total))).(cached := Some(CacheEntry(u.buffer, None))))
  {
    hide Playing, Moves;
    StoreMoves(c, g, t, u);
    q := Play(c, k, s0, r, g, t, Go, With(g, t, Finished(Uploaded(u.total))).(cached := Some(CacheEntry(u.buffer, None))));
  }

  /** A GET that misses, up to its acquire. */
  lemma PlayMiss(c: Config, k: Key, s0: State, r: Run, g: Scene, t: Tid) returns (q: Run)
    requires Playing(c, k, s0, r, g) && t < 2 && Cast(g, t).None? && ValidPath(k.path)
    ensures Playing(c, k, s0, q, WithTask(g, t, Task(Get, k, Running(Acquiring))))
  {
    hide Playing, Moves;
    q := Enter(c, k, s0, r, g, t, Get, []);
    var h := WithTask(g, t, Task(Get, k, Running(Lookup)));
    MissMoves(c, h, t);
    q := Play(c, k, s0, q, h, t, Miss, With(h, t, Running(Acquiring)));
  }

  lemma PlayLead(c: Config, k: Key, s0: State, r: Run, g: Scene) returns (q: Run)
    requires Playing(c, k, s0, r, g) && g.first == Some(Task(Get, k, Running(Acquiring)))
    requires g.current.None? && g.flight.None?
    ensures Playing(c, k, s0, q,
      With(g, 0, Running(Fetching(Guard(0)))).(current := Some(0), flight := Some(NewFlight(k, 0))))
  {
    hide Playing, Moves;
    LeadMoves(c, g, 0);
    q := Play(c, k, s0, r, g, 0, Elect(0),
      With(g, 0, Running(Fetching(Guard(0)))).(current := Some(0), flight := Some(NewFlight(k, 0))));
  }

  /** The leader gets the object. */
  lemma PlayGet(c: Config, k: Key, s0: State, r: Run, g: Scene, b: Bytes) returns (q: Run)
    requires Playing(c, k, s0, r, g) && g.first == Some(Task(Get, k, Running(Fetching(Guard(0)))))
    requires k.bucket in c.known && g.stored == Some(b)
    ensures Playing(c, k, s0, q, With(g, 0, Running(Reading(Guard(0), b))))
  {
    hide Playing, Moves;
    FetchMoves(c, g, 0);
    var h := With(g, 0, Running(Getting(Guard(0))));
    q := Play(c, k, s0, r, g, 0, Go, h);
    GetMoves(c, h, 0, b);
    q := Play(c, k, s0, q, h, 0, Go, With(h, 0, Running(Reading(Guard(0), b))));
  }

  /** The leader reads the body, inserts it if the cap admits it, and is about to
      complete. */
  lemma PlayRead(c: Config, k: Key, s0: State, r: Run, g: Scene, b: Bytes) returns (q: Run)
    requires Playing(c, k, s0, r, g) && g.first == Some(Task(Get, k, Running(Reading(Guard(0), b))))
    ensures var entry := FetchedEntry(c, k, b);
      Playing(c, k, s0, q, With(g, 0, Running(Completing(0, Ok(entry)))).(
        cached := if Admitted(c.cap, b) then Some(entry) else g.cached))
  {
    hide Playing, Moves;
    ReadMoves(c, g, 0, b);
    var entry := FetchedEntry(c, k, b);
    if Admitted(c.cap, b) {
      var h := With(g, 0, Running(Inserting(Guard(0), b)));
      q := Play(c, k, s0, r, g, 0, Go, h);
      InsertMoves(c, h, 0, b);
      q := Play(c, k, s0, q, h, 0, Go, With(h, 0, Running(Completing(0, Ok(entry)))).(cached := Some(entry)));
    } else {
      q := Play(c, k, s0, r, g, 0, Go, With(g, 0, Running(Completing(0, Ok(entry)))));
    }
  }

  /** The leader completes. */
  lemma PlayComplete(c: Config, k: Key, s0: State, r: Run, g: Scene, x: Fetched) returns (q: Run)
    requires Playing(c, k, s0, r, g) && At(g, 0, Running(Completing(0, x)))
    requires g.current == Some(0) && g.flight == Some(NewFlight(k, 0))
    ensures Playing(c, k, s0, q, With(g, 0, Finished(Led(0, x))).(
      current := None, flight := Some(Released(Filled(NewFlight(k, 0), x)))))
  {
    hide Playing, Moves;
    WriteMoves(c, g, 0, x);
    var h := With(g, 0, Running(Releasing(0, x))).(flight := Some(Filled(NewFlight(k, 0), x)));
    q := Play(c, k, s0, r, g, 0, Go, h);
    ReleaseMoves(c, h, 0, x);
    q := Play(c, k, s0, q, h, 0, Go,
      With(h, 0, Finished(Led(0, x))).(current := None, flight := Some(Released(Filled(NewFlight(k, 0), x)))));
  }

  // ----- A cache left behind the store -----

  predicate CalmRun(c: Config, s0: State, r: Run) {
    ValidRun(c, r) && r.states[0] == s0 && forall i :: 0 <= i < |r.steps| ==> Calm(r.steps[i])
  }

  predicate Succeeded(x: Task, kind: Kind) {
    x.kind == kind && x.status.Finished? &&
    match x.status.outcome
    case Led(_, r) => r.Ok?
    case Uploaded(_) => true
    case _ => false
  }

  /** At the end of the run the tasks are those of `kinds` and all have succeeded,
      nothing is in flight for `k`, and the cache holds `b` for it while the store
      holds `n`. */
  ghost predicate EndsStale(c: Config, r: Run, kinds: seq<Kind>, k: Key, b: Bytes, n: Bytes) {
    |r.states| == |r.steps| + 1 &&
    var s := r.states[|r.steps|];
    && (forall t: Tid :: t in s.tasks <==> t < |kinds|)
    && (forall t :: t in s.tasks ==> Succeeded(s.tasks[t], kinds[t]))
    && k !in s.inner && k in s.cache && s.cache[k].bytes == b && SlotOf(s.store, c.loc(k)) == Some(n)
  }

  lemma SceneEndsStale(c: Config, k: Key, s0: State, r: Run, g: Scene, kinds: seq<Kind>, b: Bytes, n: Bytes)
    requires Playing(c, k, s0, r, g)
    requires 1 <= |kinds| <= 2 && g.first.Some? && Succeeded(g.first.value, kinds[0])
    requires if |kinds| == 2 then g.second.Some? && Succeeded(g.second.value, kinds[1]) else g.second.None?
    requires g.current.None? && g.cached.Some? && g.cached.value.bytes == b && g.stored == Some(n)
    ensures CalmRun(c, s0, r) && EndsStale(c, r, kinds, k, b, n)
  {
    hide Enabled, Do, Init, Succeeded;
    var s := r.states[|r.steps|];
    forall t: Tid ensures t in s.tasks <==> t < |kinds| {
      if t in s.tasks || t < |kinds| { assert t == 0 || t == 1; }
    }
    forall t | t in s.tasks ensures Succeeded(s.tasks[t], kinds[t]) {
      assert t == 0 || t == 1;
    }
  }

  /** A fetch may overtake an upload: for every start in which the store holds `b`,
      and every other body `n`, both within the cap, a GET of `b` and an upload of
      `n` can both succeed and leave `b` cached and `n` stored, although the upload
      inserted its body and the key need not have been cached before. */
  lemma FetchOvertakesPut(c: Config, s0: State, k: Key, b: Bytes, n: Bytes) returns (r: Run)
    requires Init(c, s0) && ValidPath(k.path) && k.bucket in c.known
    requires SlotOf(s0.store, c.loc(k)) == Some(b) && b != n && Admitted(c.cap, b) && Admitted(c.cap, n)
    ensures CalmRun(c, s0, r) && EndsStale(c, r, [Get, Put(None)], k, b, n)
  {
    hide Playing, Init, CalmRun, EndsStale;
    FedIs(c, n);
    hide Fed, Admitted;
    var u := Fed(c, n);
    r := Begin(c, k, s0);
    var g := Opening(c, k, s0);
    r := PlayMiss(c, k, s0, r, g, 0);
    g := WithTask(g, 0, Task(Get, k, Running(Acquiring)));
    r := PlayLead(c, k, s0, r, g);
    g := With(g, 0, Running(Fetching(Guard(0)))).(current := Some(0), flight := Some(NewFlight(k, 0)));
    r := PlayGet(c, k, s0, r, g, b);
    g := With(g, 0, Running(Reading(Guard(0), b)));
    r := PlayUpload(c, k, s0, r, g, 1, n, 4);
    g := WithTask(g, 1, Task(Put(None), k, Running(Finishing(u, false))));
    r := PlayCommit(c, k, s0, r, g, 1, u);
    g := With(g, 1, Running(Storing(u))).(stored := Some(n));
    r := PlayStore(c, k, s0, r, g, 1, u);
    g := With(g, 1, Finished(Uploaded(u.total))).(cached := Some(CacheEntry(n, None)));
    r := PlayRead(c, k, s0, r, g, b);
    var entry := FetchedEntry(c, k, b);
    g := With(g, 0, Running(Completing(0, Ok(entry)))).(cached := Some(entry));
    r := PlayComplete(c, k, s0, r, g, Ok(entry));
    g := With(g, 0, Finished(Led(0, Ok(entry)))).(current := None, flight := Some(Released(Filled(NewFlight(k, 0), Ok(entry)))));
    SceneEndsStale(c, k, s0, r, g, [Get, Put(None)], b, n);
  }

  /** Two uploads may insert in the other order than they commit: from every start,
      for every two bodies within the cap, both succeed and leave the first one
      cached and the second one stored. */
  lemma PutOvertakesPut(c: Config, s0: State, k: Key, b: Bytes, n: Bytes) returns (r: Run)
    requires Init(c, s0) && ValidPath(k.path) && k.bucket in c.known
    requires b != n && Admitted(c.cap, b) && Admitted(c.cap, n)
    ensures CalmRun(c, s0, r) && EndsStale(c, r, [Put(None), Put(None)], k, b, n)
  {
    hide Playing, Init, CalmRun, EndsStale;
    FedIs(c, b);
    FedIs(c, n);
    hide Fed, Admitted;
    var u, w := Fed(c, b), Fed(c, n);
    r := Begin(c, k, s0);
    var g := Opening(c, k, s0);
    r := PlayUpload(c, k, s0, r, g, 0, b, 4);
    g := WithTask(g, 0, Task(Put(None), k, Running(Finishing(u, false))));
    r := PlayUpload(c, k, s0, r, g, 1, n, 4);
    g := WithTask(g, 1, Task(Put(None), k, Running(Finishing(w, false))));
    r := PlayCommit(c, k, s0, r, g, 0, u);
    g := With(g, 0, Running(Storing(u))).(stored := Some(b));
    r := PlayCommit(c, k, s0, r, g, 1, w);
    g := With(g, 1, Running(Storing(w))).(stored := Some(n));
    r := PlayStore(c, k, s0, r, g, 1, w);
    g := With(g, 1, Finished(Uploaded(w.total))).(cached := Some(CacheEntry(n, None)));
    r := PlayStore(c, k, s0, r, g, 0, u);
    g := With(g, 0, Finished(Uploaded(u.total))).(cached := Some(CacheEntry(b, None)));
    SceneEndsStale(c, k, s0, r, g, [Put(None), Put(None)], b, n);
  }

  /** One upload is enough: from every start with a cached key, an upload above the
      cap to that key, alone and successful, leaves the old body cached. */
  lemma OversizedPutLeavesStaleCache(c: Config, s0: State, k: Key, n: Bytes) returns (r: Run)
    requires Init(c, s0) && k in s0.cache && ValidPath(k.path) && k.bucket in c.known && |n| > c.cap
    ensures CalmRun(c, s0, r) && EndsStale(c, r, [Put(None)], k, s0.cache[k].bytes, n) && s0.cache[k].bytes != n
  {
    assert Admitted(c.cap, s0.cache[k].bytes);
    hide Playing, Init, CalmRun, EndsStale;
    FedIs(c, n);
    hide Fed;
    var u := Fed(c, n);
    r := Begin(c, k, s0);
    var g := Opening(c, k, s0);
    r := PlayUpload(c, k, s0, r, g, 0, n, 4);
    g := WithTask(g, 0, Task(Put(None), k, Running(Finishing(u, false))));
    r := PlayCommit(c, k, s0, r, g, 0, u);
    g := With(g, 0, Finished(Uploaded(u.total))).(stored := Some(n));
    SceneEndsStale(c, k, s0, r, g, [Put(None)], s0.cache[k].bytes, n);
  }

  // ----- Lost wake-ups -----

  /** At the end of the run the leader is answered with `x`, and its follower waits
      for an entry that was released before it registered; no task can move. */
  ghost predicate EndsStranded(c: Config, r: Run, x: Fetched) {
    |r.states| == |r.steps| + 1 &&
    var s := r.states[|r.steps|];
    && s.tasks.Keys == {0, 1} && s.tasks[0].status == Finished(Led(0, x))
    && s.tasks[1].kind.Get? && Stranded(s, 1) && AtRest(c, s)
  }

  /** Two GETs of `k` miss; one leads, the other joins it. */
  lemma PlayJoin(c: Config, k: Key, s0: State) returns (r: Run, g: Scene)
    requires Init(c, s0) && ValidPath(k.path)
    ensures Playing(c, k, s0, r, g)
    ensures g == Scene(Some(Task(Get, k, Running(Fetching(Guard(0))))), Some(Task(Get, k, Running(Registering(0)))),
                       SlotOf(s0.cache, k), Some(0), Some(NewFlight(k, 0)), SlotOf(s0.store, c.loc(k)))
  {
    hide Playing, Init, Moves;
    r := Begin(c, k, s0);
    g := Opening(c, k, s0);
    r := PlayMiss(c, k, s0, r, g, 0);
    g := WithTask(g, 0, Task(Get, k, Running(Acquiring)));
    r := PlayMiss(c, k, s0, r, g, 1);
    g := WithTask(g, 1, Task(Get, k, Running(Acquiring)));
    r := PlayLead(c, k, s0, r, g);
    g := With(g, 0, Running(Fetching(Guard(0)))).(current := Some(0), flight := Some(NewFlight(k, 0)));
    JoinMoves(c, g, 1);
    r := Play(c, k, s0, r, g, 1, Elect(1), With(g, 1, Running(Registering(0))));
    g := With(g, 1, Running(Registering(0)));
  }

  /** The leader completes before its follower registers. */
  lemma PlayLate(c: Config, k: Key, s0: State, r: Run, g: Scene, x: Fetched) returns (q: Run)
    requires Playing(c, k, s0, r, g)
    requires g.first == Some(Task(Get, k, Running(Completing(0, x)))) && g.second == Some(Task(Get, k, Running(Registering(0))))
    requires g.current == Some(0) && g.flight == Some(NewFlight(k, 0))
    ensures CalmRun(c, s0, q) && EndsStranded(c, q, x)
  {
    hide Playing, Moves, CalmRun, EndsStranded;
    q := PlayComplete(c, k, s0, r, g, x);
    var h := With(g, 0, Finished(Led(0, x))).(current := None, flight := Some(Released(Filled(NewFlight(k, 0), x))));
    RegisterMoves(c, h, 1);
    var f := Joined(h.flight.value, 1);
    q := Play(c, k, s0, q, h, 1, Go, With(h, 1, Running(Waiting(0, false))).(flight := Some(f)));
    SceneEndsStranded(c, k, s0, q, With(h, 1, Running(Waiting(0, false))).(flight := Some(f)), x);
  }

  lemma SceneEndsStranded(c: Config, k: Key, s0: State, r: Run, g: Scene, x: Fetched)
    requires Playing(c, k, s0, r, g)
    requires g.first.Some? && g.first.value.status == Finished(Led(0, x))
    requires g.second == Some(Task(Get, k, Running(Waiting(0, false))))
    requires g.flight.Some? && g.flight.value.releases == 1
    ensures CalmRun(c, s0, r) && EndsStranded(c, r, x)
  {
    hide Enabled, Do, Init, AtRest;
    var s := r.states[|r.steps|];
    assert s.tasks.Keys == {0, 1};
    AtRestIsDrained(c, r, |r.steps|);
  }

  /** A wake-up can be lost: from every start, for every key with a valid path and an
      unknown bucket, the leader can be answered with its error and its follower
      left waiting for good. */
  lemma FollowerIsStrandedByError(c: Config, s0: State, k: Key) returns (r: Run)
    requires Init(c, s0) && ValidPath(k.path) && k.bucket !in c.known
    ensures CalmRun(c, s0, r) && EndsStranded(c, r, Err(UnknownBucket))
  {
    hide Playing, Init, Moves, CalmRun, EndsStranded;
    var g;
    r, g := PlayJoin(c, k, s0);
    FetchMoves(c, g, 0);
    r := Play(c, k, s0, r, g, 0, Go, With(g, 0, Running(Completing(0, Err(UnknownBucket)))));
    r := PlayLate(c, k, s0, r, With(g, 0, Running(Completing(0, Err(UnknownBucket)))), Err(UnknownBucket));
  }

  /** And also by a leader that succeeds: from every start in which the store holds
      the object, whatever its size. */
  lemma FollowerIsStrandedBySuccess(c: Config, s0: State, k: Key, b: Bytes) returns (r: Run)
    requires Init(c, s0) && ValidPath(k.path) && k.bucket in c.known && SlotOf(s0.store, c.loc(k)) == Some(b)
    ensures CalmRun(c, s0, r) && EndsStranded(c, r, Ok(FetchedEntry(c, k, b)))
  {
    hide Playing, Init, Moves, CalmRun, EndsStranded, Admitted;
    var g;
    r, g := PlayJoin(c, k, s0);
    r := PlayGet(c, k, s0, r, g, b);
    g := With(g, 0, Running(Reading(Guard(0), b)));
    r := PlayRead(c, k, s0, r, g, b);
    var entry := FetchedEntry(c, k, b);
    g := With(g, 0, Running(Completing(0, Ok(entry)))).(cached := if Admitted(c.cap, b) then Some(entry) else g.cached);
    r := PlayLate(c, k, s0, r, g, Ok(entry));
  }
}
