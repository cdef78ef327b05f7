/** What a PUT does with the body it was sent, over every run: all of it reaches
    the store, and what is kept for the cache is what the fetch path would keep. */
module Requests {
  import opened Prelude
  import opened Uploads
  import opened Service
  import opened Flights
  import opened SingleFlight
  import opened Provenance

  /** How far a task that was sent `stream` has come with it. */
  predicate Carries(c: Config, stream: seq<Chunk>, x: Status) {
    match x
    case Finished(Uploaded(total)) => Intact(stream) && total == FeedAll(c.cap, c.max, Chunks(stream)).total
    case Finished(_) => true
    case _ => CarriesAt(c, stream, x.at)
  }

  predicate CarriesAt(c: Config, stream: seq<Chunk>, p: Phase) {
    match p
    case PutStarting(rest) => rest == stream
    case PutOpening(rest) => rest == stream
    case Streaming(rest, u) => SentUpTo(c, stream, rest, u)
    case Aborting => !Intact(stream)
    case Finishing(u, _) => Intact(stream) && u == FeedAll(c.cap, c.max, Chunks(stream))
    case Storing(u) => Intact(stream) && u == FeedAll(c.cap, c.max, Chunks(stream)) && !u.capped
    case _ => true
  }

  /** `rest` is unread and everything before it has been fed to `u`. */
  predicate SentUpTo(c: Config, stream: seq<Chunk>, rest: seq<Chunk>, u: Upload) {
    && |rest| <= |stream|
    && var n := |stream| - |rest|;
       rest == stream[n..] && Intact(stream[..n]) && u == FeedAll(c.cap, c.max, Chunks(stream[..n]))
  }

  lemma NothingSent(c: Config, stream: seq<Chunk>)
    ensures SentUpTo(c, stream, stream, Start(c.cap))
  {
    assert stream[0..] == stream && Chunks(stream[..0]) == [];
  }

  lemma AllSent(c: Config, stream: seq<Chunk>, u: Upload)
    requires SentUpTo(c, stream, [], u)
    ensures Intact(stream) && u == FeedAll(c.cap, c.max, Chunks(stream))
  {
    assert stream[..|stream|] == stream;
  }

  lemma OneMoreSent(c: Config, stream: seq<Chunk>, rest: seq<Chunk>, u: Upload)
    requires SentUpTo(c, stream, rest, u) && rest != []
    ensures rest[0].Data? ==> SentUpTo(c, stream, rest[1..], Feed(c.cap, c.max, u, rest[0].bytes))
    ensures rest[0].Broken? ==> !Intact(stream)
  {
    var n := |stream| - |rest|;
    assert stream[n] == rest[0] && stream[n + 1..] == rest[1..];
    if rest[0].Data? {
      assert stream[..n + 1] == stream[..n] + [stream[n]];
      assert Chunks(stream[..n + 1]) == Chunks(stream[..n]) + [rest[0].bytes];
      var chunks := Chunks(stream[..n + 1]);
      assert chunks[..|chunks| - 1] == Chunks(stream[..n]);
    }
  }

  lemma StreamCarries(c: Config, v: View, a: Action, stream: seq<Chunk>, rest: seq<Chunk>, u: Upload)
    requires SentUpTo(c, stream, rest, u)
    ensures var e := ActStream(c, v, rest, u, a); e.Some? ==> Carries(c, stream, e.value.status)
  {
    hide SentUpTo, Feed, FeedAll, Intact, Chunks;
    if rest == [] {
      AllSent(c, stream, u);
    } else {
      OneMoreSent(c, stream, rest, u);
    }
  }

  lemma PutCarries(c: Config, t: Tid, v: View, a: Action, stream: seq<Chunk>)
    requires v.task.status.Running? && PutPhase(v.task.status.at) && CarriesAt(c, stream, v.task.status.at)
    ensures var e := ActRunning(c, t, v, v.task.status.at, a); e.Some? ==> Carries(c, stream, e.value.status)
  {
    hide SentUpTo, FeedAll, Intact, Chunks;
    match v.task.status.at
    case PutOpening(_) => NothingSent(c, stream);
    case Streaming(rest, u) =>
      hide ActStream, Carries;
      StreamCarries(c, v, a, stream, rest, u);
    case _ =>
  }

  lemma OtherCarries(c: Config, t: Tid, v: View, a: Action, stream: seq<Chunk>)
    requires v.task.status.Running? && !PutPhase(v.task.status.at)
    ensures var e := ActRunning(c, t, v, v.task.status.at, a);
      e.Some? && e.value.status.Running? ==> !PutPhase(e.value.status.at)
    ensures var e := ActRunning(c, t, v, v.task.status.at, a);
      e.Some? ==>
      && !e.value.status.Dropping? && !e.value.status.Cancelled?
      && (e.value.status.Finished? ==> !e.value.status.outcome.Uploaded?)
  {}

  lemma ActCarries(c: Config, t: Tid, v: View, a: Action, stream: seq<Chunk>)
    requires Carries(c, stream, v.task.status)
    ensures var e := Act(c, t, v, a); e.Some? ==> Carries(c, stream, e.value.status)
  {
    hide ActRunning, SentUpTo, FeedAll, Intact, Chunks;
    if v.task.status.Running? && !a.Cancel? {
      if PutPhase(v.task.status.at) {
        PutCarries(c, t, v, a, stream);
      } else {
        OtherCarries(c, t, v, a, stream);
      }
    }
  }

  /** In step `i` of the run PUT `t` arrives for `key` with `stream` as its body. */
  predicate PutArrives(r: Run, i: nat, t: Tid, key: Key, stream: seq<Chunk>) {
    i < |r.steps| && r.steps[i].Arrive? && r.steps[i].kind.Put?
    && r.steps[i].t == t && r.steps[i].key == key && r.steps[i].stream == stream
  }

  lemma {:induction false} RunCarries(c: Config, r: Run, i: nat, j: nat, t: Tid, key: Key, stream: seq<Chunk>)
    requires ValidRun(c, r) && PutArrives(r, i, t, key, stream) && i < j < |r.states|
    ensures t in r.states[j].tasks
    ensures var x := r.states[j].tasks[t]; x.key == key && x.kind == r.steps[i].kind && Carries(c, stream, x.status)
  {
    hide Act, Carries;
    if i + 1 == j {
      ArrivalCarries(c, r.states[i], r.steps[i]);
    } else {
      hide Enabled, Do;
      RunCarries(c, r, i, j - 1, t, key, stream);
      CarriesOn(c, r.states[j - 1], r.steps[j - 1], t, stream);
    }
  }

  lemma ArrivalCarries(c: Config, s: State, step: Step)
    requires Enabled(c, s, step) && step.Arrive? && step.kind.Put?
    ensures step.t in Do(c, s, step).tasks
    ensures var x := Do(c, s, step).tasks[step.t];
      x.key == step.key && x.kind == step.kind && Carries(c, step.stream, x.status)
  {
    hide Act, Apply;
  }

  lemma CarriesOn(c: Config, s: State, step: Step, t: Tid, stream: seq<Chunk>)
    requires Enabled(c, s, step) && t in s.tasks && Carries(c, stream, s.tasks[t].status)
    ensures var s' := Do(c, s, step);
      && t in s'.tasks && s'.tasks[t].key == s.tasks[t].key && s'.tasks[t].kind == s.tasks[t].kind
      && Carries(c, stream, s'.tasks[t].status)
  {
    hide Enabled, Do, Act, Carries;
    if step.Take? && step.t == t {
      OwnStep(c, s, t, step.a);
      ActCarries(c, t, ViewOf(c, s, t), step.a, stream);
    } else {
      OthersStay(c, s, step, t);
    }
  }

  /** The body a PUT was sent, if reading it does not fail. */
  function WholeBody(stream: seq<Chunk>): Bytes
    requires Intact(stream)
  {
    Concat(Chunks(stream))
  }

  /** Whenever a PUT asks the store to finish its upload, the store has been given
      the whole body and nothing else; what is then inserted into the cache is the
      whole body, within the cap; and the size answered is the body's. A body whose
      reading fails is never committed, cached or acknowledged. */
  lemma PutSendsTheWholeBody(c: Config, r: Run, i: nat, j: nat, t: Tid, key: Key, stream: seq<Chunk>)
    requires ValidRun(c, r) && PutArrives(r, i, t, key, stream) && i < j < |r.states|
    ensures t in r.states[j].tasks
    ensures var x := r.states[j].tasks[t].status;
      && (!x.Finished? && (x.at.Finishing? || x.at.Storing?) ==>
            Intact(stream) && x.at.upload.sent == WholeBody(stream))
      && (!x.Finished? && x.at.Storing? ==>
            x.at.upload.buffer == WholeBody(stream) && |WholeBody(stream)| <= c.cap)
      && (x.Finished? && x.outcome.Uploaded? ==>
            && Intact(stream)
            && x.outcome.total == if |WholeBody(stream)| <= c.max then |WholeBody(stream)| else c.max)
  {
    hide ValidRun;
    RunCarries(c, r, i, j, t, key, stream);
    if Intact(stream) {
      FeedAllMeaning(c.cap, c.max, Chunks(stream));
    }
  }

  /** Once its commit is acknowledged a PUT goes on to insert its body into the
      cache exactly when the fetch path would have cached that body, provided no
      chunk came to a full buffer; so for non-empty chunks, however the body was
      split, exactly when the fetch path would. */
  lemma PutCachesWhatFetchWould(c: Config, r: Run, i: nat, j: nat, t: Tid, key: Key, stream: seq<Chunk>)
    requires ValidRun(c, r) && PutArrives(r, i, t, key, stream) && i < j < |r.steps|
    requires r.steps[j] == Take(t, Go)
    requires var x := r.states[j].tasks[t].status; x.Running? && x.at.Finishing?
    ensures Intact(stream) && t in r.states[j + 1].tasks
    ensures var stored := r.states[j + 1].tasks[t].status.Running?;
      && (stored <==> Admitted(c.cap, WholeBody(stream)) && NoLateChunk(c.cap, Chunks(stream)))
      && ((forall n :: 0 <= n < |stream| ==> stream[n] != Data([])) ==>
            (stored <==> Admitted(c.cap, WholeBody(stream))))
  {
    hide Act, Do;
    var s := r.states[j];
    assert Enabled(c, s, Take(t, Go));
    hide Enabled, ValidRun;
    RunCarries(c, r, i, j, t, key, stream);
    OwnStep(c, s, t, Go);
    AcknowledgedAct(c, t, ViewOf(c, s, t));
    FeedAllMeaning(c.cap, c.max, Chunks(stream));
    if forall n :: 0 <= n < |stream| ==> stream[n] != Data([]) {
      forall n | 0 <= n < |Chunks(stream)| ensures Chunks(stream)[n] != [] {
        assert stream[n] == Data(Chunks(stream)[n]);
      }
      ChunkingIndependent(c.cap, c.max, Chunks(stream));
    }
  }

  lemma AcknowledgedAct(c: Config, t: Tid, v: View)
    requires v.task.status.Running? && v.task.status.at.Finishing?
    ensures var e := Act(c, t, v, Go); e.Some? ==> (e.value.status.Running? <==> !v.task.status.at.upload.capped)
  {}
}
