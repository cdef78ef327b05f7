/** Sums over the tasks of a state, and what one step does to them. */
module Tallies {
  import opened Prelude
  import opened Service
  import opened Flights

  function One(b: bool): nat {
    if b then 1 else 0
  }

  function Tally(p: Task -> bool): Task -> nat {
    (x: Task) => One(p(x))
  }

  ghost function CountTasks(s: State, p: Task -> bool): nat {
    Sum(s.tasks, Tally(p))
  }

  function Child(key: Key): Task {
    Task(Prefetch, key, Running(Acquiring))
  }

  /** A task's step replaces its weight, and adds that of a spawned prefetch. */
  lemma SumAfter(c: Config, s: State, t: Tid, e: Effect, w: Task -> nat)
    requires t in s.tasks && (e.spawn.Some? ==> e.spawn.value !in s.tasks)
    ensures var x := s.tasks[t];
      Sum(Apply(c, s, t, e).tasks, w) + w(x)
        == Sum(s.tasks, w) + w(x.(status := e.status)) + if e.spawn.Some? then w(Child(x.key)) else 0
  {
    var x := s.tasks[t];
    if e.spawn.Some? {
      SumAdd(s.tasks, e.spawn.value, Child(x.key), w);
    }
    SumReplace(WithChild(s.tasks, e.spawn, x.key), t, x.(status := e.status), w);
  }

  lemma SpawnFresh(c: Config, s: State, t: Tid, a: Action)
    requires Enabled(c, s, Take(t, a))
    ensures var e := Act(c, t, ViewOf(c, s, t), a).value; e.spawn.Some? ==> e.spawn.value !in s.tasks
  {
    SpawnIsNew(c, t, ViewOf(c, s, t), a);
  }
}
