/** A fixed number of slots, each free or holding one keyed value, seen as a map. */
module KeyedSlots {

  datatype Slot<V> = Slot(inUse: bool, key: nat, val: V)

  ghost predicate Unique<V>(cs: seq<Slot<V>>) {
    forall i, j :: 0 <= i < j < |cs| && cs[i].inUse && cs[j].inUse ==> cs[i].key != cs[j].key
  }

  /** Slot i is in use for key k. */
  predicate Holds<V>(cs: seq<Slot<V>>, i: nat, k: nat) {
    i < |cs| && cs[i].inUse && cs[i].key == k
  }

  function Table<V>(cs: seq<Slot<V>>): map<nat, V>
    decreases |cs|
  {
    if cs == [] then map[] else
    var m := Table(cs[..|cs| - 1]);
    var c := cs[|cs| - 1];
    if c.inUse then m[c.key := c.val] else m
  }

  lemma {:induction false} TableKeys<V>(cs: seq<Slot<V>>)
    ensures forall k {:trigger k in Table(cs)} :: k in Table(cs) <==> exists i: nat :: Holds(cs, i, k)
    decreases |cs|
  {
    if cs != [] {
      var before, n := cs[..|cs| - 1], |cs| - 1;
      TableKeys(before);
      forall k {:trigger k in Table(cs)} ensures k in Table(cs) <==> exists i: nat :: Holds(cs, i, k) {
        if k in Table(cs) {
          if cs[n].inUse && cs[n].key == k {
            assert Holds(cs, n, k);
          } else {
            assert k in Table(before);
            var i: nat :| Holds(before, i, k);
            assert Holds(cs, i, k);
          }
        }
        if i: nat :| Holds(cs, i, k) {
          if i < n { assert Holds(before, i, k) && k in Table(before); }
        }
      }
    }
  }

  lemma {:induction false} TableAt<V>(cs: seq<Slot<V>>, i: nat, k: nat)
    requires Unique(cs) && Holds(cs, i, k)
    ensures k in Table(cs) && Table(cs)[k] == cs[i].val
    decreases |cs|
  {
    if i < |cs| - 1 {
      assert Holds(cs[..|cs| - 1], i, k);
      TableAt(cs[..|cs| - 1], i, k);
    }
  }

  function Count<V>(cs: seq<Slot<V>>): (n: nat)
    ensures n <= |cs|
    ensures n < |cs| ==> exists i :: 0 <= i < |cs| && !cs[i].inUse
  {
    if cs == [] then 0 else Count(cs[..|cs| - 1]) + if cs[|cs| - 1].inUse then 1 else 0
  }

  lemma {:induction false} TableSize<V>(cs: seq<Slot<V>>)
    requires Unique(cs)
    ensures |Table(cs)| == Count(cs)
    decreases |cs|
  {
    if cs != [] {
      var before, c := cs[..|cs| - 1], cs[|cs| - 1];
      TableSize(before);
      TableKeys(before);
    }
  }

  lemma {:induction false} CountOne<V>(cs: seq<Slot<V>>, i: nat, c: Slot<V>)
    requires i < |cs|
    ensures Count(cs[i := c]) + (if cs[i].inUse then 1 else 0) == Count(cs) + if c.inUse then 1 else 0
    decreases |cs|
  {
    var n := |cs| - 1;
    if i < n {
      CountOne(cs[..n], i, c);
      assert cs[i := c][..n] == cs[..n][i := c];
    } else {
      assert cs[i := c][..n] == cs[..n];
    }
  }

  /** Using a free slot for a new key, or a key's own slot again. */
  lemma TableSet<V>(cs: seq<Slot<V>>, i: nat, k: nat, v: V)
    requires Unique(cs) && i < |cs|
    requires if cs[i].inUse then cs[i].key == k else forall j :: !Holds(cs, j, k)
    ensures Unique(cs[i := Slot(true, k, v)]) && Table(cs[i := Slot(true, k, v)]) == Table(cs)[k := v]
  {
    var ds := cs[i := Slot(true, k, v)];
    forall j | 0 <= j < |cs| && cs[j].inUse && j != i ensures cs[j].key != k {
      assert !Holds(cs, j, k) || cs[i].inUse;
    }
    var a, b := Table(ds), Table(cs)[k := v];
    TableKeys(cs);
    TableKeys(ds);
    assert Holds(ds, i, k);
    TableAt(ds, i, k);
    forall x | x in a && x != k ensures x in b && b[x] == a[x] {
      var j :| Holds(ds, j, x);
      assert Holds(cs, j, x);
      TableAt(ds, j, x);
      TableAt(cs, j, x);
    }
    forall x | x in b && x != k ensures x in a {
      var j :| Holds(cs, j, x);
      assert Holds(ds, j, x);
    }
  }

  lemma TableFree<V>(cs: seq<Slot<V>>, i: nat)
    requires Unique(cs) && i < |cs| && cs[i].inUse
    ensures Unique(cs[i := cs[i].(inUse := false)]) && Table(cs[i := cs[i].(inUse := false)]) == Table(cs) - {cs[i].key}
  {
    var ds := cs[i := cs[i].(inUse := false)];
    var a, b := Table(ds), Table(cs) - {cs[i].key};
    TableKeys(cs);
    TableKeys(ds);
    forall x | x in a ensures x in b && b[x] == a[x] {
      var j :| Holds(ds, j, x);
      assert Holds(cs, j, x) && j != i;
      TableAt(ds, j, x);
      TableAt(cs, j, x);
    }
    forall x | x in b ensures x in a {
      var j :| Holds(cs, j, x);
      assert Holds(ds, j, x);
    }
  }
}
