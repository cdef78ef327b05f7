/** Vocabulary shared by every module: options and results, maps read and
    written one slot at a time, and sums of a weight over the values of a map. */
module Prelude {

  datatype Option<+T> = None | Some(value: T)

  datatype Result<+T, +E> = Ok(value: T) | Err(error: E)

  newtype Byte = b: int | 0 <= b < 256

  type Bytes = seq<Byte>

  function SlotOf<K, V>(m: map<K, V>, k: K): Option<V> {
    if k in m then Some(m[k]) else None
  }

  /** `m` with slot `k` set to `v`, or emptied when `v` is None. */
  function SetSlot<K(!new), V>(m: map<K, V>, k: K, v: Option<V>): (r: map<K, V>)
    ensures forall j {:trigger j in r} :: j in r <==> if j == k then v.Some? else j in m
    ensures forall j {:trigger r[j]} :: j in r ==> r[j] == if j == k then v.value else m[j]
  {
    match v
    case Some(x) => m[k := x]
    case None => m - {k}
  }

  lemma SetSlotSame<K(!new), V>(m: map<K, V>, k: K)
    ensures SetSlot(m, k, SlotOf(m, k)) == m
  {}

  lemma SetSlotCommutes<K(!new), V>(m: map<K, V>, j: K, v: Option<V>, k: K, w: Option<V>)
    requires j != k
    ensures SetSlot(SetSlot(m, j, v), k, w) == SetSlot(SetSlot(m, k, w), j, v)
  {
    var l, r := SetSlot(SetSlot(m, j, v), k, w), SetSlot(SetSlot(m, k, w), j, v);
    assert forall x :: x in l <==> x in r;
    assert forall x :: x in l ==> l[x] == r[x];
  }

  // ----- Sums over the values of a finite map -----

  ghost function Pick<V>(m: map<nat, V>): nat
    requires m != map[]
    ensures Pick(m) in m
  {
    var k :| k in m; k
  }

  ghost function Sum<V>(m: map<nat, V>, w: V -> nat): nat
    decreases |m|
  {
    if m == map[] then 0 else
    var k := Pick(m);
    assert |m - {k}| < |m| by { assert (m - {k}).Keys == m.Keys - {k}; }
    w(m[k]) + Sum(m - {k}, w)
  }

  /** Any one value can be taken out of the sum, whichever the sum picks first. */
  lemma {:induction false} SumRemove<V>(m: map<nat, V>, k: nat, w: V -> nat)
    requires k in m
    ensures Sum(m, w) == w(m[k]) + Sum(m - {k}, w)
    decreases |m|
  {
    var j := Pick(m);
    if j != k {
      assert |m - {j}| < |m| && |m - {k}| < |m| by {
        assert (m - {j}).Keys == m.Keys - {j} && (m - {k}).Keys == m.Keys - {k};
      }
      SumRemove(m - {j}, k, w);
      SumRemove(m - {k}, j, w);
      assert m - {j} - {k} == m - {k} - {j};
    }
  }

  /** Replacing one value changes the sum by the difference of the two weights. */
  lemma SumReplace<V>(m: map<nat, V>, k: nat, x: V, w: V -> nat)
    requires k in m
    ensures Sum(m[k := x], w) + w(m[k]) == Sum(m, w) + w(x)
  {
    SumRemove(m, k, w);
    SumRemove(m[k := x], k, w);
    assert m[k := x] - {k} == m - {k};
  }

  lemma SumAdd<V>(m: map<nat, V>, k: nat, x: V, w: V -> nat)
    requires k !in m
    ensures Sum(m[k := x], w) == Sum(m, w) + w(x)
  {
    SumRemove(m[k := x], k, w);
    assert m[k := x] - {k} == m;
  }

  /** Two pairs of weights that agree value by value agree in sum. */
  lemma {:induction false} SumBalance<V>(m: map<nat, V>, a: V -> nat, b: V -> nat, x: V -> nat, y: V -> nat)
    requires forall k :: k in m ==> a(m[k]) + b(m[k]) == x(m[k]) + y(m[k])
    ensures Sum(m, a) + Sum(m, b) == Sum(m, x) + Sum(m, y)
    decreases |m|
  {
    if m != map[] {
      var k := Pick(m);
      var rest := m - {k};
      assert |rest| < |m| by { assert rest.Keys == m.Keys - {k}; }
      SumRemove(m, k, a);
      SumRemove(m, k, b);
      SumRemove(m, k, x);
      SumRemove(m, k, y);
      SumBalance(rest, a, b, x, y);
    }
  }

  /** A weight that splits into two, value by value, splits in sum. */
  lemma {:induction false} SumSplit<V>(m: map<nat, V>, a: V -> nat, b: V -> nat, x: V -> nat)
    requires forall k :: k in m ==> a(m[k]) + b(m[k]) == x(m[k])
    ensures Sum(m, a) + Sum(m, b) == Sum(m, x)
    decreases |m|
  {
    if m != map[] {
      var k := Pick(m);
      var rest := m - {k};
      assert |rest| < |m| by { assert rest.Keys == m.Keys - {k}; }
      SumRemove(m, k, a);
      SumRemove(m, k, b);
      SumRemove(m, k, x);
      SumSplit(rest, a, b, x);
    }
  }

  lemma {:induction false} SumEqual<V>(m: map<nat, V>, a: V -> nat, b: V -> nat)
    requires forall k :: k in m ==> a(m[k]) == b(m[k])
    ensures Sum(m, a) == Sum(m, b)
    decreases |m|
  {
    if m != map[] {
      var k := Pick(m);
      var rest := m - {k};
      assert |rest| < |m| by { assert rest.Keys == m.Keys - {k}; }
      SumEqual(rest, a, b);
    }
  }

  lemma {:induction false} SumZero<V>(m: map<nat, V>, w: V -> nat)
    requires forall k :: k in m ==> w(m[k]) == 0
    ensures Sum(m, w) == 0
    decreases |m|
  {
    if m != map[] {
      var k := Pick(m);
      SumRemove(m, k, w);
      assert |m - {k}| < |m| by { assert (m - {k}).Keys == m.Keys - {k}; }
      SumZero(m - {k}, w);
    }
  }

  /** A finite map never uses up the identifiers. */
  lemma {:induction false} UnusedId<V>(m: map<nat, V>) returns (n: nat)
    ensures forall k :: k in m ==> k < n
    decreases |m|
  {
    if m == map[] {
      n := 0;
    } else {
      var k := Pick(m);
      assert |m - {k}| < |m| by { assert (m - {k}).Keys == m.Keys - {k}; }
      var rest := m - {k};
      n := UnusedId(rest);
      assert forall j :: j in m ==> j == k || j in rest;
      n := if k < n then n else k + 1;
    }
  }
}
