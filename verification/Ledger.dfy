/** The request, cache and upstream counters (src/metrics.rs, src/handler.rs)
    against the tasks they should account for, in every reachable state. */
module Ledger {
  import opened Prelude
  import opened Uploads
  import opened Service
  import opened Flights
  import opened Tallies

  // ----- Which phases and outcomes a kind of request has -----

  predicate KindAt(k: Kind, p: Phase) {
    match k
    case Get => !PutPhase(p) && !p.Heading?
    case Head(_) => p.Lookup? || p.Heading?
    case Prefetch => p.Acquiring? || GuardAt(p).Some?
    case Put(_) => PutPhase(p)
  }

  predicate KindEnds(k: Kind, o: Outcome) {
    match k
    case Get => o.Rejected? || o.Hit? || o.Led? || o.Shared? || o.Rehit? || o.Fallback?
    case Head(_) => o.Rejected? || o.Hit? || o.HeadOk? || o.Early?
    case Prefetch => o.Led? || o.Skipped?
    case Put(_) => o.Rejected? || o.Early? || o.Uploaded? || o.Failed?
  }

  predicate Typed(x: Task) {
    && (x.status.Dropping? ==> GuardAt(x.status.at).Some?)
    && if x.status.Finished? then KindEnds(x.kind, x.status.outcome) else KindAt(x.kind, x.status.at)
  }

  // ----- What each counter should count -----

  datatype Counter = Requests | Hits | Misses | Oks | Errs

  function Value(n: Counter, m: Metrics): multiset<Method> {
    match n
    case Requests => m.requests
    case Hits => m.hits
    case Misses => m.misses
    case Oks => m.upstreamOk
    case Errs => m.upstreamErr
  }

  predicate Emits(n: Counter, e: Emit) {
    match n
    case Requests => e.request
    case Hits => e.hit
    case Misses => e.miss
    case Oks => e.ok
    case Errs => e.err
  }

  predicate StoreFault(e: AppError) {
    e.NotFound? || e.BadGateway?
  }

  /** The result of a task's own upstream call, once it is known. */
  function UpstreamAt(p: Phase): Option<bool> {
    match p
    case Inserting(_, _) => Some(true)
    case Completing(_, r) => UpstreamResult(r)
    case Releasing(_, r) => UpstreamResult(r)
    case Storing(_) => Some(true)
    case _ => None
  }

  function UpstreamResult(r: Fetched): Option<bool> {
    if r.Ok? then Some(true) else if StoreFault(r.error) then Some(false) else None
  }

  function UpstreamOf(x: Status): Option<bool> {
    match x
    case Finished(Led(_, r)) => UpstreamResult(r)
    case Finished(Fallback(_, r)) => UpstreamResult(r)
    case Finished(HeadOk(_)) => Some(true)
    case Finished(Uploaded(_)) => Some(true)
    case Finished(Early(e)) => if StoreFault(e) then Some(false) else None
    case Finished(Failed(e)) => if StoreFault(e) then Some(false) else None
    case Finished(_) => None
    case _ => UpstreamAt(x.at)
  }

  /** The first cache lookup of a GET or HEAD with a valid path is over. */
  predicate LookedUp(x: Task) {
    (x.kind.Get? || x.kind.Head?) &&
    if x.status.Finished? then !x.status.outcome.Rejected? else !x.status.at.Lookup?
  }

  predicate IsHit(x: Task) {
    x.status.Finished? && x.status.outcome.Hit?
  }

  predicate Accounted(n: Counter, x: Task) {
    match n
    case Requests => x.status.Finished? && !x.status.outcome.Early? && !x.kind.Prefetch?
    case Hits => IsHit(x)
    case Misses => LookedUp(x) && !IsHit(x)
    case Oks => UpstreamOf(x.status) == Some(true)
    case Errs => UpstreamOf(x.status) == Some(false)
  }

  predicate AccountedBy(n: Counter, m: Method, x: Task) {
    MethodOf(x.kind) == m && Accounted(n, x)
  }

  function Account(n: Counter, m: Method): Task -> nat {
    (x: Task) => One(AccountedBy(n, m, x))
  }

  ghost predicate Balanced(s: State, n: Counter, m: Method) {
    Value(n, s.metrics)[m] == Sum(s.tasks, Account(n, m))
  }

  ghost predicate LedgerInv(s: State) {
    && (forall t :: t in s.tasks ==> Typed(s.tasks[t]))
    && (forall n, m :: Balanced(s, n, m))
  }

  // ----- One step -----

  predicate Books(v: View, e: Effect) {
    var x' := v.task.(status := e.status);
    && Typed(x')
    && (forall n :: One(Accounted(n, x')) == One(Accounted(n, v.task)) + One(Emits(n, e.emit)))
  }

  lemma FetchBooks(c: Config, t: Tid, v: View, a: Action)
    requires v.task.status.Running? && Typed(v.task) && !a.Cancel?
    requires FetchPhase(v.task.status.at)
    ensures var e := Act(c, t, v, a); e.Some? ==> Books(v, e.value)
  {
    hide ValidPath, Feed, Admitted, FetchedEntry, Start;
  }

  lemma FlightBooks(c: Config, t: Tid, v: View, a: Action)
    requires v.task.status.Running? && Typed(v.task) && !a.Cancel?
    requires Touches(v.task.status.at) || v.task.status.at.Relooking?
    ensures var e := Act(c, t, v, a); e.Some? ==> Books(v, e.value)
  {
    hide ValidPath, Feed, Admitted, FetchedEntry, Start;
  }

  lemma PutBooks(c: Config, t: Tid, v: View, a: Action)
    requires v.task.status.Running? && Typed(v.task) && !a.Cancel?
    requires PutPhase(v.task.status.at)
    ensures var e := Act(c, t, v, a); e.Some? ==> Books(v, e.value)
  {
    hide ValidPath, Feed, Admitted, FetchedEntry, Start;
  }

  lemma LookupBooks(c: Config, t: Tid, v: View, a: Action)
    requires v.task.status.Running? && Typed(v.task) && !a.Cancel?
    requires v.task.status.at.Lookup? || v.task.status.at.Heading?
    ensures var e := Act(c, t, v, a); e.Some? ==> Books(v, e.value)
  {
    hide ValidPath, Feed, Admitted, FetchedEntry, Start;
  }

  lemma ActBooks(c: Config, t: Tid, v: View, a: Action)
    requires Typed(v.task)
    ensures var e := Act(c, t, v, a); e.Some? ==> Books(v, e.value)
  {
    hide ActRunning;
    if v.task.status.Running? && !a.Cancel? {
      var p := v.task.status.at;
      if FetchPhase(p) {
        FetchBooks(c, t, v, a);
      } else if Touches(p) || p.Relooking? {
        FlightBooks(c, t, v, a);
      } else if PutPhase(p) {
        PutBooks(c, t, v, a);
      } else {
        LookupBooks(c, t, v, a);
      }
    }
  }

  // ----- Every step -----

  lemma ValueAfter(n: Counter, m: Metrics, x: Method, e: Emit, y: Method)
    ensures Value(n, Count(m, x, e))[y] == Value(n, m)[y] + One(Emits(n, e) && x == y)
  {}

  lemma ChildIsUncounted(n: Counter, m: Method, key: Key)
    ensures Account(n, m)(Child(key)) == 0
  {}

  lemma TakeBalances(c: Config, s: State, t: Tid, e: Effect, n: Counter, m: Method)
    requires t in s.tasks && (e.spawn.Some? ==> e.spawn.value !in s.tasks)
    requires Balanced(s, n, m)
    requires var x := s.tasks[t];
      One(Accounted(n, x.(status := e.status))) == One(Accounted(n, x)) + One(Emits(n, e.emit))
    ensures Balanced(Apply(c, s, t, e), n, m)
  {
    hide Accounted, WithChild, Typed;
    var x := s.tasks[t];
    SumAfter(c, s, t, e, Account(n, m));
    ValueAfter(n, s.metrics, MethodOf(x.kind), e.emit, m);
    ChildIsUncounted(n, m, x.key);
  }

  lemma TakeTyped(c: Config, s: State, t: Tid, e: Effect)
    requires t in s.tasks && forall u :: u in s.tasks ==> Typed(s.tasks[u])
    requires Typed(s.tasks[t].(status := e.status))
    ensures forall u :: u in Apply(c, s, t, e).tasks ==> Typed(Apply(c, s, t, e).tasks[u])
  {}

  lemma ArriveBalances(s: State, t: Tid, kind: Kind, key: Key, p: Phase)
    requires LedgerInv(s) && t !in s.tasks && KindAt(kind, p) && (p.Lookup? || p.PutStarting?)
    ensures LedgerInv(s.(tasks := s.tasks[t := Task(kind, key, Running(p))]))
  {
    var x := Task(kind, key, Running(p));
    var s' := s.(tasks := s.tasks[t := x]);
    forall n, m ensures Balanced(s', n, m) {
      assert Balanced(s, n, m);
      SumAdd(s.tasks, t, x, Account(n, m));
    }
  }

  lemma StepBalances(c: Config, s: State, step: Step)
    requires LedgerInv(s) && Enabled(c, s, step)
    ensures LedgerInv(Do(c, s, step))
  {
    hide Act;
    match step
    case Arrive(t, kind, key, stream) => ArriveBalances(s, t, kind, key, FirstPhase(kind, stream));
    case Take(t, a) =>
      var e := Act(c, t, ViewOf(c, s, t), a).value;
      SpawnFresh(c, s, t, a);
      ActBooks(c, t, ViewOf(c, s, t), a);
      assert Books(ViewOf(c, s, t), e);
      TakeTyped(c, s, t, e);
      forall n, m ensures Balanced(Apply(c, s, t, e), n, m) {
        assert Balanced(s, n, m);
        TakeBalances(c, s, t, e, n, m);
      }
    case Evict(_) => assert forall n, m :: Balanced(s, n, m) ==> Balanced(Do(c, s, step), n, m);
    case External(_, _) => assert forall n, m :: Balanced(s, n, m) ==> Balanced(Do(c, s, step), n, m);
  }

  lemma {:induction false} RunBalances(c: Config, r: Run, i: nat)
    requires ValidRun(c, r) && i < |r.states|
    ensures LedgerInv(r.states[i])
  {
    if i > 0 {
      hide Enabled, Do, Init, LedgerInv;
      RunBalances(c, r, i - 1);
      StepBalances(c, r.states[i - 1], r.steps[i - 1]);
    }
  }

  // ----- What it says -----

  predicate IsGet(x: Task) { x.kind.Get? }

  predicate GetLookedUp(x: Task) { IsGet(x) && LookedUp(x) }

  predicate GetRejected(x: Task) { IsGet(x) && x.status == Finished(Rejected) }

  /** Live or cancelled, after its lookup. */
  predicate GetUnfinished(x: Task) { GetLookedUp(x) && !x.status.Finished? }

  lemma LookupTask(x: Task)
    ensures One(AccountedBy(Hits, GET, x)) + One(AccountedBy(Misses, GET, x)) == One(GetLookedUp(x))
    ensures Account(Hits, GET)(x) + Account(Misses, GET)(x) == Tally(GetLookedUp)(x)
  {}

  lemma LookupsAreHitsAndMisses(s: State)
    requires LedgerInv(s)
    ensures s.metrics.hits[GET] + s.metrics.misses[GET] == CountTasks(s, GetLookedUp)
  {
    assert Balanced(s, Hits, GET) && Balanced(s, Misses, GET);
    forall t | t in s.tasks
      ensures Account(Hits, GET)(s.tasks[t]) + Account(Misses, GET)(s.tasks[t]) == Tally(GetLookedUp)(s.tasks[t])
    {
      LookupTask(s.tasks[t]);
    }
    SumSplit(s.tasks, Account(Hits, GET), Account(Misses, GET), Tally(GetLookedUp));
  }

  lemma AnsweredOrUnfinishedTask(x: Task)
    requires Typed(x)
    ensures One(GetLookedUp(x)) + One(GetRejected(x)) == One(AccountedBy(Requests, GET, x)) + One(GetUnfinished(x))
    ensures Tally(GetLookedUp)(x) + Tally(GetRejected)(x) == Account(Requests, GET)(x) + Tally(GetUnfinished)(x)
  {}

  lemma AnsweredOrUnfinished(s: State)
    requires LedgerInv(s)
    ensures CountTasks(s, GetLookedUp) + CountTasks(s, GetRejected)
         == s.metrics.requests[GET] + CountTasks(s, GetUnfinished)
  {
    assert Balanced(s, Requests, GET);
    forall t | t in s.tasks
      ensures Tally(GetLookedUp)(s.tasks[t]) + Tally(GetRejected)(s.tasks[t])
           == Account(Requests, GET)(s.tasks[t]) + Tally(GetUnfinished)(s.tasks[t])
    {
      AnsweredOrUnfinishedTask(s.tasks[t]);
    }
    SumBalance(s.tasks, Tally(GetLookedUp), Tally(GetRejected), Account(Requests, GET), Tally(GetUnfinished));
  }

  /** GET: hits and misses together count the lookups of valid paths; with the
      bad paths they count the answered requests and those that were not, or not
      yet, answered after their lookup. */
  lemma GetLedger(c: Config, r: Run, i: nat)
    requires ValidRun(c, r) && i < |r.states|
    ensures var s := r.states[i];
      && s.metrics.hits[GET] + s.metrics.misses[GET] == CountTasks(s, GetLookedUp)
      && s.metrics.hits[GET] + s.metrics.misses[GET] + CountTasks(s, GetRejected)
           == s.metrics.requests[GET] + CountTasks(s, GetUnfinished)
  {
    RunBalances(c, r, i);
    LookupsAreHitsAndMisses(r.states[i]);
    AnsweredOrUnfinished(r.states[i]);
  }

  /** An answered request of the method; prefetches are nobody's request. */
  predicate Call(m: Method, x: Task) {
    && x.status.Finished?
    && match m
       case GET => x.kind.Get?
       case HEAD => x.kind.Head?
       case PUT => x.kind.Put?
  }

  predicate EarlyCall(m: Method, x: Task) {
    Call(m, x) && x.status.outcome.Early?
  }

  function Calls(m: Method): Task -> bool { (x: Task) => Call(m, x) }

  function EarlyCalls(m: Method): Task -> bool { (x: Task) => EarlyCall(m, x) }

  lemma CallsAreCounted(s: State, m: Method)
    requires LedgerInv(s)
    ensures s.metrics.requests[m] + CountTasks(s, EarlyCalls(m)) == CountTasks(s, Calls(m))
  {
    assert Balanced(s, Requests, m);
    SumSplit(s.tasks, Account(Requests, m), Tally(EarlyCalls(m)), Tally(Calls(m)));
  }

  lemma GetNeverLeavesEarly(s: State)
    requires LedgerInv(s)
    ensures CountTasks(s, EarlyCalls(GET)) == 0
  {
    forall t | t in s.tasks ensures Tally(EarlyCalls(GET))(s.tasks[t]) == 0 {
      assert Typed(s.tasks[t]);
    }
    SumZero(s.tasks, Tally(EarlyCalls(GET)));
  }

  /** Every method: the request total falls short of the answered calls exactly
      by the early returns, of which GET has none. */
  lemma RequestLedger(c: Config, r: Run, i: nat, m: Method)
    requires ValidRun(c, r) && i < |r.states|
    ensures var s := r.states[i];
      && s.metrics.requests[m] + CountTasks(s, EarlyCalls(m)) == CountTasks(s, Calls(m))
      && CountTasks(s, EarlyCalls(GET)) == 0
  {
    RunBalances(c, r, i);
    CallsAreCounted(r.states[i], m);
    GetNeverLeavesEarly(r.states[i]);
  }

  // ----- Upstream gets -----

  predicate Fetches(k: Kind) { k.Get? || k.Prefetch? }

  predicate PendingGet(x: Task) {
    !x.status.Finished? && (x.status.at.Getting? || x.status.at.Reading?)
  }

  predicate CompletedGet(x: Task) {
    Fetches(x.kind) && UpstreamOf(x.status).Some?
  }

  /** A task has called store.get. */
  predicate Issued(x: Task) {
    PendingGet(x) || CompletedGet(x)
  }

  lemma FetchIssues(c: Config, t: Tid, v: View, a: Action)
    requires Typed(v.task) && v.task.status.Running?
    requires FetchPhase(v.task.status.at)
    ensures var e := ActRunning(c, t, v, v.task.status.at, a);
      e.Some? ==> One(Issued(v.task.(status := e.value.status))) == One(Issued(v.task)) + One(e.value.emit.get)
  {
    hide ValidPath, Feed, Admitted, FetchedEntry, Start;
  }

  lemma PutIssues(c: Config, t: Tid, v: View, a: Action)
    requires Typed(v.task) && v.task.status.Running?
    requires PutPhase(v.task.status.at)
    ensures var e := ActRunning(c, t, v, v.task.status.at, a);
      e.Some? ==> One(Issued(v.task.(status := e.value.status))) == One(Issued(v.task)) + One(e.value.emit.get)
  {
    hide ValidPath, Feed, Admitted, FetchedEntry, Start;
  }

  lemma OtherIssues(c: Config, t: Tid, v: View, a: Action)
    requires Typed(v.task) && v.task.status.Running?
    requires !FetchPhase(v.task.status.at) && !PutPhase(v.task.status.at)
    ensures var e := ActRunning(c, t, v, v.task.status.at, a);
      e.Some? ==> One(Issued(v.task.(status := e.value.status))) == One(Issued(v.task)) + One(e.value.emit.get)
  {
    hide ValidPath, Feed, Admitted, FetchedEntry, Start;
  }

  lemma ActIssues(c: Config, t: Tid, v: View, a: Action)
    requires Typed(v.task)
    ensures var e := Act(c, t, v, a);
      e.Some? ==> One(Issued(v.task.(status := e.value.status))) == One(Issued(v.task)) + One(e.value.emit.get)
  {
    hide ActRunning;
    if v.task.status.Running? && !a.Cancel? {
      var p := v.task.status.at;
      if FetchPhase(p) {
        FetchIssues(c, t, v, a);
      } else if PutPhase(p) {
        PutIssues(c, t, v, a);
      } else {
        OtherIssues(c, t, v, a);
      }
    }
  }

  lemma {:induction false} GetsAreIssued(c: Config, r: Run, i: nat)
    requires ValidRun(c, r) && i < |r.states|
    ensures |r.states[i].history.gets| == CountTasks(r.states[i], Issued)
  {
    if i > 0 {
      hide Act, Enabled, Do, Init, LedgerInv;
      GetsAreIssued(c, r, i - 1);
      RunBalances(c, r, i - 1);
      StepIssues(c, r.states[i - 1], r.steps[i - 1]);
    }
  }

  lemma TakeIssues(c: Config, s: State, t: Tid, e: Effect)
    requires t in s.tasks && (e.spawn.Some? ==> e.spawn.value !in s.tasks)
    requires |s.history.gets| == CountTasks(s, Issued)
    requires One(Issued(s.tasks[t].(status := e.status))) == One(Issued(s.tasks[t])) + One(e.emit.get)
    ensures |Apply(c, s, t, e).history.gets| == CountTasks(Apply(c, s, t, e), Issued)
  {
    SumAfter(c, s, t, e, Tally(Issued));
    ChildIssuesNothing(s.tasks[t].key);
    assert Tally(Issued)(s.tasks[t]) == One(Issued(s.tasks[t]));
    assert Tally(Issued)(s.tasks[t].(status := e.status)) == One(Issued(s.tasks[t].(status := e.status)));
  }

  lemma ChildIssuesNothing(key: Key)
    ensures One(Issued(Child(key))) == 0 && Tally(Issued)(Child(key)) == 0
  {}

  lemma ArrivalIssuesNothing(kind: Kind, key: Key, stream: seq<Chunk>)
    ensures var x := Task(kind, key, Running(FirstPhase(kind, stream))); One(Issued(x)) == 0 && Tally(Issued)(x) == 0
  {}

  lemma StepIssues(c: Config, s: State, step: Step)
    requires LedgerInv(s) && Enabled(c, s, step) && |s.history.gets| == CountTasks(s, Issued)
    ensures |Do(c, s, step).history.gets| == CountTasks(Do(c, s, step), Issued)
  {
    hide Act, Apply;
    match step
    case Arrive(t, kind, key, stream) =>
      ArrivalIssuesNothing(kind, key, stream);
      SumAdd(s.tasks, t, Task(kind, key, Running(FirstPhase(kind, stream))), Tally(Issued));
    case Take(t, a) =>
      var v := ViewOf(c, s, t);
      assert Typed(s.tasks[t]);
      SpawnFresh(c, s, t, a);
      ActIssues(c, t, v, a);
      TakeIssues(c, s, t, Act(c, t, v, a).value);
    case Evict(_) =>
    case External(_, _) =>
  }

  predicate HeadAnswered(x: Task) {
    x.kind.Head? && UpstreamOf(x.status).Some?
  }

  function Outcomes(m: Method): Task -> bool {
    (x: Task) => MethodOf(x.kind) == m && UpstreamOf(x.status).Some?
  }

  predicate CompletedBy(k: Kind, x: Task) {
    x.kind == k && UpstreamOf(x.status).Some?
  }

  function CompletedFetches(k: Kind): Task -> bool {
    (x: Task) => CompletedBy(k, x)
  }

  /** Every upstream call that has completed is counted once, as a success or as an
      error, by the method it was made for: GET's counters count the completed
      store gets of GETs, HEAD's those of prefetches and the store heads, PUT's the
      answered uploads. And every store get made is one of these, or pending, or was
      cancelled while pending. */
  lemma UpstreamLedger(c: Config, r: Run, i: nat)
    requires ValidRun(c, r) && i < |r.states|
    ensures var s, m := r.states[i], r.states[i].metrics;
      && m.upstreamOk[GET] + m.upstreamErr[GET] == CountTasks(s, CompletedFetches(Get))
      && m.upstreamOk[HEAD] + m.upstreamErr[HEAD] == CountTasks(s, CompletedFetches(Prefetch)) + CountTasks(s, HeadAnswered)
      && m.upstreamOk[PUT] + m.upstreamErr[PUT] == CountTasks(s, Outcomes(PUT))
      && |s.history.gets| ==
           CountTasks(s, CompletedFetches(Get)) + CountTasks(s, CompletedFetches(Prefetch)) + CountTasks(s, PendingGet)
  {
    RunBalances(c, r, i);
    GetsAreIssued(c, r, i);
    var s := r.states[i];
    OutcomesAreCounted(s, GET);
    OutcomesAreCounted(s, HEAD);
    OutcomesAreCounted(s, PUT);
    MethodsSplit(s);
    IssuedSplit(s);
  }

  lemma MethodTask(x: Task)
    requires Typed(x)
    ensures Tally(Outcomes(GET))(x) == Tally(CompletedFetches(Get))(x)
    ensures One(Outcomes(HEAD)(x)) == One(CompletedBy(Prefetch, x)) + One(HeadAnswered(x))
    ensures Tally(Outcomes(HEAD))(x) == Tally(CompletedFetches(Prefetch))(x) + Tally(HeadAnswered)(x)
  {}

  lemma MethodsSplit(s: State)
    requires forall t :: t in s.tasks ==> Typed(s.tasks[t])
    ensures CountTasks(s, Outcomes(GET)) == CountTasks(s, CompletedFetches(Get))
    ensures CountTasks(s, Outcomes(HEAD)) == CountTasks(s, CompletedFetches(Prefetch)) + CountTasks(s, HeadAnswered)
  {
    forall t | t in s.tasks
      ensures Tally(Outcomes(GET))(s.tasks[t]) == Tally(CompletedFetches(Get))(s.tasks[t])
      ensures Tally(CompletedFetches(Prefetch))(s.tasks[t]) + Tally(HeadAnswered)(s.tasks[t]) == Tally(Outcomes(HEAD))(s.tasks[t])
    {
      MethodTask(s.tasks[t]);
    }
    SumEqual(s.tasks, Tally(Outcomes(GET)), Tally(CompletedFetches(Get)));
    SumSplit(s.tasks, Tally(CompletedFetches(Prefetch)), Tally(HeadAnswered), Tally(Outcomes(HEAD)));
  }

  lemma IssuedTask(x: Task)
    requires Typed(x)
    ensures One(CompletedGet(x)) + One(PendingGet(x)) == One(Issued(x))
    ensures One(CompletedBy(Get, x)) + One(CompletedBy(Prefetch, x)) == One(CompletedGet(x))
    ensures Tally(CompletedGet)(x) + Tally(PendingGet)(x) == Tally(Issued)(x)
    ensures Tally(CompletedFetches(Get))(x) + Tally(CompletedFetches(Prefetch))(x) == Tally(CompletedGet)(x)
  {}

  lemma IssuedSplit(s: State)
    requires forall t :: t in s.tasks ==> Typed(s.tasks[t])
    ensures CountTasks(s, Issued)
         == CountTasks(s, CompletedFetches(Get)) + CountTasks(s, CompletedFetches(Prefetch)) + CountTasks(s, PendingGet)
  {
    forall t | t in s.tasks
      ensures Tally(CompletedGet)(s.tasks[t]) + Tally(PendingGet)(s.tasks[t]) == Tally(Issued)(s.tasks[t])
      ensures Tally(CompletedFetches(Get))(s.tasks[t]) + Tally(CompletedFetches(Prefetch))(s.tasks[t]) == Tally(CompletedGet)(s.tasks[t])
    {
      IssuedTask(s.tasks[t]);
    }
    SumSplit(s.tasks, Tally(CompletedGet), Tally(PendingGet), Tally(Issued));
    SumSplit(s.tasks, Tally(CompletedFetches(Get)), Tally(CompletedFetches(Prefetch)), Tally(CompletedGet));
  }

  lemma OutcomesAreCounted(s: State, m: Method)
    requires LedgerInv(s)
    ensures s.metrics.upstreamOk[m] + s.metrics.upstreamErr[m] == CountTasks(s, Outcomes(m))
  {
    assert Balanced(s, Oks, m) && Balanced(s, Errs, m);
    SumSplit(s.tasks, Account(Oks, m), Account(Errs, m), Tally(Outcomes(m)));
  }
}
