/** `Inflight`, its entries and its guards as the objects they are
    (src/inflight.rs). Each method is one locked section of the source; what may
    run between two of them is the step model's subject. */
module InflightObjects {
  import opened Prelude
  import opened Slots
  import opened Service

  datatype InflightPermit<R> = Leader(guard: InflightGuard<R>) | Follower(entry: InflightEntry<R>)

  /** The entry, with `Notify`'s list of registered waiters and those it woke. */
  class InflightEntry<R> {
    var result: Option<R>
    var waiting: set<Tid>
    var notified: set<Tid>

    constructor ()
      ensures result.None? && waiting == {} && notified == {}
    {
      result := None;
      waiting, notified := {}, {};
    }

    /** `wait` creates its `notified()`. */
    method Register(t: Tid)
      modifies this
      ensures waiting == old(waiting) + {t} && notified == old(notified) && result == old(result)
    {
      waiting := waiting + {t};
    }

    /** `notify_waiters` wakes who is registered and remembers nothing. */
    method NotifyWaiters()
      modifies this
      ensures waiting == {} && notified == old(notified) + old(waiting) && result == old(result)
    {
      notified := notified + waiting;
      waiting := {};
    }

    /** The rest of `wait`, once woken. */
    method Wake(t: Tid) returns (r: Option<R>)
      requires t in notified
      modifies this
      ensures r == old(result) == result
      ensures notified == old(notified) - {t} && waiting == old(waiting)
    {
      notified := notified - {t};
      r := result;
    }
  }

  class InflightGuard<R> {
    const inflight: Inflight<R>
    const key: Key
    const entry: InflightEntry<R>
    var released: bool

    constructor (inflight: Inflight<R>, key: Key, entry: InflightEntry<R>)
      ensures this.inflight == inflight && this.key == key && this.entry == entry && !released
    {
      this.inflight, this.key, this.entry := inflight, key, entry;
      released := false;
    }

    /** First half of `complete`. */
    method WriteResult(result: R)
      requires inflight.Valid() && this in inflight.live
      modifies entry
      ensures inflight.Valid()
      ensures entry.result == Some(result)
      ensures entry.waiting == old(entry.waiting) && entry.notified == old(entry.notified)
    {
      entry.result := Some(result);
    }

    /** The leader's result is stored, its key leaves the map whatever else is in
        flight, and every waiter registered by then is woken. */
    method Complete(result: R)
      requires inflight.Valid() && this in inflight.live
      modifies this, inflight, entry
      ensures inflight.Valid() && released
      ensures inflight.live == old(inflight.live) - {this} && inflight.spawned == old(inflight.spawned)
      ensures key in old(inflight.inner) && inflight.inner == old(inflight.inner) - {key}
      ensures entry.result == Some(result)
      ensures entry.waiting == {} && entry.notified == old(entry.notified) + old(entry.waiting)
    {
      GuardDone(inflight.inner, inflight.live, inflight.spawned, this);
      WriteResult(result);
      inflight.Release(key, entry);
      released := true;
      inflight.live := inflight.live - {this};
    }

    /** `Drop for InflightGuard`: an unreleased guard leaves its release to a
        spawned task; until that has run, the key stays led. */
    method Drop()
      requires inflight.Valid() && (released || this in inflight.live)
      modifies inflight
      ensures inflight.Valid()
      ensures inflight.inner == old(inflight.inner)
      ensures released ==> inflight.spawned == old(inflight.spawned) && inflight.live == old(inflight.live)
      ensures !released ==>
        && inflight.spawned == old(inflight.spawned) + [(key, entry)]
        && inflight.live == old(inflight.live) - {this}
    {
      if released {
        return;
      }
      GuardDropped(inflight.inner, inflight.live, inflight.spawned, this);
      inflight.spawned := inflight.spawned + [(key, entry)];
      inflight.live := inflight.live - {this};
    }
  }

  // ----- The map and the outstanding obligations -----

  /** Somebody still has to release `k`: a live guard, or a spawned release. */
  ghost predicate Owed<R>(live: set<InflightGuard<R>>, spawned: seq<(Key, InflightEntry<R>)>, k: Key) {
    (exists g :: g in live && g.key == k) || (exists i :: 0 <= i < |spawned| && spawned[i].0 == k)
  }

  /** The map is in bijection with the outstanding obligations, live guards and
      spawned releases, and no two keys share an entry. */
  ghost predicate Bijection<R>(inner: map<Key, InflightEntry<R>>, live: set<InflightGuard<R>>,
                               spawned: seq<(Key, InflightEntry<R>)>) {
    && (forall g :: g in live ==> SlotOf(inner, g.key) == Some(g.entry))
    && (forall i :: 0 <= i < |spawned| ==> SlotOf(inner, spawned[i].0) == Some(spawned[i].1))
    && (forall g, h :: g in live && h in live && g != h ==> g.key != h.key)
    && (forall i, j :: 0 <= i < j < |spawned| ==> spawned[i].0 != spawned[j].0)
    && (forall g, i :: g in live && 0 <= i < |spawned| ==> g.key != spawned[i].0)
    && (forall k :: k in inner ==> Owed(live, spawned, k))
    && (forall j, k :: j in inner && k in inner && j != k ==> inner[j] != inner[k])
  }

  lemma GuardAdded<R>(inner: map<Key, InflightEntry<R>>, live: set<InflightGuard<R>>,
                      spawned: seq<(Key, InflightEntry<R>)>, g: InflightGuard<R>)
    requires Bijection(inner, live, spawned) && g.key !in inner && forall k :: k in inner ==> inner[k] != g.entry
    ensures Bijection(inner[g.key := g.entry], live + {g}, spawned)
  {
    forall k | k in inner[g.key := g.entry] ensures Owed(live + {g}, spawned, k) {
      if k == g.key {
        assert g in live + {g};
      } else if h :| h in live && h.key == k {
        assert h in live + {g};
      }
    }
  }

  lemma GuardDone<R>(inner: map<Key, InflightEntry<R>>, live: set<InflightGuard<R>>,
                     spawned: seq<(Key, InflightEntry<R>)>, g: InflightGuard<R>)
    requires Bijection(inner, live, spawned) && g in live
    ensures SlotOf(inner, g.key) == Some(g.entry) && Bijection(inner - {g.key}, live - {g}, spawned)
  {
    forall k | k in inner - {g.key} ensures Owed(live - {g}, spawned, k) {
      if h :| h in live && h.key == k {
        assert h in live - {g};
      }
    }
  }

  lemma GuardDropped<R>(inner: map<Key, InflightEntry<R>>, live: set<InflightGuard<R>>,
                        spawned: seq<(Key, InflightEntry<R>)>, g: InflightGuard<R>)
    requires Bijection(inner, live, spawned) && g in live
    ensures Bijection(inner, live - {g}, spawned + [(g.key, g.entry)])
  {
    var after := spawned + [(g.key, g.entry)];
    forall k | k in inner ensures Owed(live - {g}, after, k) {
      if i: int :| 0 <= i < |spawned| && spawned[i].0 == k {
        assert after[i].0 == k;
      } else {
        var h :| h in live && h.key == k;
        assert after[|spawned|].0 == g.key;
        assert h == g || h in live - {g};
      }
    }
  }

  lemma SpawnedDone<R>(inner: map<Key, InflightEntry<R>>, live: set<InflightGuard<R>>,
                       spawned: seq<(Key, InflightEntry<R>)>, n: nat)
    requires Bijection(inner, live, spawned) && n < |spawned|
    ensures SlotOf(inner, spawned[n].0) == Some(spawned[n].1)
    ensures Bijection(inner - {spawned[n].0}, live, spawned[..n] + spawned[n + 1..])
  {
    var key, after := spawned[n].0, spawned[..n] + spawned[n + 1..];
    forall i | 0 <= i < |after| ensures after[i] == spawned[if i < n then i else i + 1] {}
    forall k | k in inner - {key} ensures Owed(live, after, k) {
      if i: int :| 0 <= i < |spawned| && spawned[i].0 == k {
        assert after[if i < n then i else i - 1].0 == k;
      }
    }
  }

  class Inflight<R> {
    var inner: map<Key, InflightEntry<R>>
    /** The releases spawned by dropped guards that have not run yet. */
    var spawned: seq<(Key, InflightEntry<R>)>
    /** The guards that are neither released nor dropped. */
    ghost var live: set<InflightGuard<R>>

    ghost predicate Valid()
      reads this, live
    {
      && (forall g :: g in live ==> g.inflight == this && !g.released)
      && Bijection(inner, live, spawned)
    }

    constructor ()
      ensures Valid() && inner == map[] && spawned == [] && live == {}
    {
      inner := map[];
      spawned := [];
      live := {};
    }

    method Acquire(key: Key) returns (permit: InflightPermit<R>)
      requires Valid()
      modifies this
      ensures Valid() && spawned == old(spawned)
      ensures permit.Follower? <==> key in old(inner)
      ensures permit.Follower? ==>
        && AcquireSlot(old(SlotOf(inner, key)), permit.entry) == (SlotOf(inner, key), Permit.Follower(permit.entry))
        && inner == old(inner) && live == old(live)
      ensures permit.Leader? ==>
        && AcquireSlot(old(SlotOf(inner, key)), permit.guard.entry)
             == (SlotOf(inner, key), Permit.Leader(permit.guard.entry))
        && fresh(permit.guard) && fresh(permit.guard.entry)
        && permit.guard.inflight == this && permit.guard.key == key && !permit.guard.released
        && permit.guard.entry.result.None? && permit.guard.entry.waiting == {}
        && inner == old(inner)[key := permit.guard.entry] && live == old(live) + {permit.guard}
    {
      if key in inner {
        return InflightPermit.Follower(inner[key]);
      }
      var entry := new InflightEntry<R>();
      var guard := new InflightGuard<R>(this, key, entry);
      GuardAdded(inner, live, spawned, guard);
      inner := inner[key := entry];
      live := live + {guard};
      permit := InflightPermit.Leader(guard);
    }

    /** Removes and wakes only if the slot still holds this very entry. */
    method Release(key: Key, entry: InflightEntry<R>)
      modifies this, entry
      ensures live == old(live) && spawned == old(spawned)
      ensures inner == if Releases(old(SlotOf(inner, key)), entry) then old(inner) - {key} else old(inner)
      ensures entry.result == old(entry.result)
      ensures if Releases(old(SlotOf(inner, key)), entry)
        then entry.waiting == {} && entry.notified == old(entry.notified) + old(entry.waiting)
        else entry.waiting == old(entry.waiting) && entry.notified == old(entry.notified)
    {
      if key in inner && inner[key] == entry {
        inner := inner - {key};
        entry.NotifyWaiters();
      }
    }

    /** The task spawned by a dropped guard. Its entry is always still current. */
    method RunSpawned(i: nat)
      requires Valid() && i < |spawned|
      modifies this, spawned[i].1
      ensures Valid() && live == old(live)
      ensures spawned == old(spawned[..i] + spawned[i + 1..])
      ensures old(spawned[i].0) in old(inner) && inner == old(inner) - {old(spawned[i].0)}
      ensures var entry := old(spawned[i].1);
        && entry.result == old(spawned[i].1.result) && entry.waiting == {}
        && entry.notified == old(spawned[i].1.notified) + old(spawned[i].1.waiting)
    {
      var (key, entry) := spawned[i];
      SpawnedDone(inner, live, spawned, i);
      Release(key, entry);
      spawned := spawned[..i] + spawned[i + 1..];
    }
  }

  /** A `complete` that is cancelled between its two halves still hands over its
      result and frees the key, once the release it spawned has run, whatever other
      releases are pending; a follower registered by then reads that result. */
  method CompleteCutShort<R>(guard: InflightGuard<R>, result: R, t: Tid) returns (told: Option<R>)
    requires guard.inflight.Valid() && guard in guard.inflight.live
    modifies guard.inflight, guard.entry
    ensures guard.inflight.Valid() && guard.inflight.inner == old(guard.inflight.inner) - {guard.key}
    ensures guard.inflight.spawned == old(guard.inflight.spawned)
    ensures guard.inflight.live == old(guard.inflight.live) - {guard}
    ensures told == Some(result)
  {
    guard.entry.Register(t);
    guard.WriteResult(result);
    guard.Drop();
    guard.inflight.RunSpawned(|guard.inflight.spawned| - 1);
    told := guard.entry.Wake(t);
  }
}
