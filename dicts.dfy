/** Python dictionaries as insertion-ordered association lists: lookup,
    item assignment (`d[k] = v`, which keeps an existing key in place),
    `d.update(m)` and `dict(ChainMap(*maps))`. */
module Dicts {
  import opened Wrappers

  type Dict<K, V> = seq<(K, V)>

  function Keys<K(==), V>(d: Dict<K, V>): (ks: seq<K>)
    ensures |ks| == |d| && forall i :: 0 <= i < |d| ==> ks[i] == d[i].0
  {
    if d == [] then [] else [d[0].0] + Keys(d[1..])
  }

  predicate UniqueKeys<K(==), V>(d: Dict<K, V>) {
    forall i, j :: 0 <= i < j < |d| ==> d[i].0 != d[j].0
  }

  /** `d.get(k)`: the value of the first entry with key `k`. */
  function Get<K(==), V>(d: Dict<K, V>, k: K): (r: Option<V>)
    ensures r.Some? <==> k in Keys(d)
  {
    if d == [] then None else if d[0].0 == k then Some(d[0].1) else Get(d[1..], k)
  }

  /** `d[k] = v`: overwrite in place when `k` is present, append otherwise. */
  function Assign<K(==), V>(d: Dict<K, V>, k: K, v: V): (r: Dict<K, V>)
    ensures k in Keys(d) ==> Keys(r) == Keys(d)
    ensures k !in Keys(d) ==> Keys(r) == Keys(d) + [k]
  {
    if d == [] then [(k, v)]
    else if d[0].0 == k then [(k, v)] + d[1..]
    else [d[0]] + Assign(d[1..], k, v)
  }

  /** `d.update(m)`: assign every entry of `m` in order. */
  function Update<K(==), V>(d: Dict<K, V>, m: Dict<K, V>): Dict<K, V>
    decreases |m|
  {
    if m == [] then d else Update(Assign(d, m[0].0, m[0].1), m[1..])
  }

  /** The value a `ChainMap` gives for `k`: that of the first map holding `k`. */
  function FirstGet<K(==), V>(ms: seq<Dict<K, V>>, k: K): Option<V> {
    if ms == [] then None else if Get(ms[0], k).Some? then Get(ms[0], k) else FirstGet(ms[1..], k)
  }

  /** `dict(ChainMap(*ms))`. `ChainMap.__iter__` collects the keys by updating
      an empty dict with the maps from last to first, so a key sits where the
      last map holding it puts it, while its value comes from the first map. */
  function ChainMap<K(==), V>(ms: seq<Dict<K, V>>): Dict<K, V> {
    if ms == [] then [] else Update(ChainMap(ms[1..]), ms[0])
  }

  // ---------------------------------------------------------------------------

  /** Assignment reads back, and leaves every other key alone; distinct keys stay distinct. */
  lemma AssignGet<K, V>(d: Dict<K, V>, k: K, v: V)
    ensures Get(Assign(d, k, v), k) == Some(v)
    ensures forall k' :: k' != k ==> Get(Assign(d, k, v), k') == Get(d, k')
    ensures UniqueKeys(d) ==> UniqueKeys(Assign(d, k, v))
  {
    AssignGetSame(d, k, v);
    forall k' | k' != k
      ensures Get(Assign(d, k, v), k') == Get(d, k')
    {
      AssignGetOther(d, k, v, k');
    }
    if UniqueKeys(d) {
      AssignUnique(d, k, v);
    }
  }

  lemma {:induction false} AssignGetSame<K, V>(d: Dict<K, V>, k: K, v: V)
    ensures Get(Assign(d, k, v), k) == Some(v)
  {
    if d != [] && d[0].0 != k {
      AssignGetSame(d[1..], k, v);
      assert Assign(d, k, v)[1..] == Assign(d[1..], k, v);
    }
  }

  lemma {:induction false} AssignGetOther<K, V>(d: Dict<K, V>, k: K, v: V, k': K)
    requires k' != k
    ensures Get(Assign(d, k, v), k') == Get(d, k')
  {
    if d != [] {
      var r := Assign(d, k, v);
      if d[0].0 == k {
        assert r[1..] == d[1..];
      } else {
        AssignGetOther(d[1..], k, v, k');
        assert r[1..] == Assign(d[1..], k, v);
      }
    }
  }

  lemma AssignUnique<K, V>(d: Dict<K, V>, k: K, v: V)
    requires UniqueKeys(d)
    ensures UniqueKeys(Assign(d, k, v))
  {
    var r := Assign(d, k, v);
    var ks := Keys(r);
    if k in Keys(d) {
      assert ks == Keys(d);
    } else {
      assert ks == Keys(d) + [k];
    }
    forall i, j | 0 <= i < j < |r|
      ensures r[i].0 != r[j].0
    {
      assert r[i].0 == ks[i] && r[j].0 == ks[j];
    }
  }

  /** Assigning a fresh key appends one entry at the end. */
  lemma {:induction false} AssignFresh<K, V>(d: Dict<K, V>, k: K, v: V)
    requires k !in Keys(d)
    ensures Assign(d, k, v) == d + [(k, v)]
  {
    if d != [] {
      assert k != Keys(d)[0];
      assert Keys(d[1..]) == Keys(d)[1..];
      AssignFresh(d[1..], k, v);
      assert [d[0]] + (d[1..] + [(k, v)]) == d + [(k, v)];
    }
  }

  /** A second assignment to the same key overrides the first in place. */
  lemma {:induction false} AssignTwice<K, V>(d: Dict<K, V>, k: K, v: V, w: V)
    ensures Assign(Assign(d, k, v), k, w) == Assign(d, k, w)
  {
    if d != [] && d[0].0 != k {
      AssignTwice(d[1..], k, v, w);
      assert Assign(d, k, v)[1..] == Assign(d[1..], k, v);
    }
  }

  /** With distinct keys, the entry at position `i` is the one `Get` finds. */
  lemma {:induction false} GetAt<K, V>(d: Dict<K, V>, i: nat)
    requires UniqueKeys(d) && i < |d|
    ensures Get(d, d[i].0) == Some(d[i].1)
  {
    if i > 0 {
      assert d[0].0 != d[i].0;
      assert d[1..][i - 1] == d[i];
      GetAt(d[1..], i - 1);
    }
  }

  /** With distinct keys, assigning an existing key replaces its entry in place. */
  lemma {:induction false} AssignAt<K, V>(d: Dict<K, V>, i: nat, v: V)
    requires UniqueKeys(d) && i < |d|
    ensures Assign(d, d[i].0, v) == d[i := (d[i].0, v)]
  {
    if i > 0 {
      assert d[0].0 != d[i].0;
      assert d[1..][i - 1] == d[i];
      var k := d[i].0;
      AssignAt(d[1..], i - 1, v);
      var tail := d[1..][i - 1 := (k, v)];
      var lhs, rhs := [d[0]] + tail, d[i := (k, v)];
      forall j | 0 <= j < |d|
        ensures lhs[j] == rhs[j]
      {
        if j > 0 {
          assert lhs[j] == tail[j - 1];
        }
      }
      assert lhs == rhs;
    }
  }

  /** Every entry after an assignment is the new one or one that was there. */
  lemma {:induction false} AssignEntries<K, V>(d: Dict<K, V>, k: K, v: V)
    ensures forall e :: e in Assign(d, k, v) ==> e == (k, v) || e in d
  {
    if d != [] && d[0].0 != k {
      AssignEntries(d[1..], k, v);
    }
  }

  /** A value found by `Get` is the value of an entry with that key. */
  lemma {:induction false} GetEntry<K, V>(d: Dict<K, V>, k: K)
    requires Get(d, k).Some?
    ensures (k, Get(d, k).value) in d
  {
    if d[0].0 != k {
      GetEntry(d[1..], k);
    }
  }

  /** With distinct keys in `m`, `d.update(m)` answers from `m` first and from
      `d` for the keys `m` lacks. */
  lemma {:induction false} UpdateGet<K, V>(d: Dict<K, V>, m: Dict<K, V>, k: K)
    requires UniqueKeys(m)
    ensures Get(Update(d, m), k) == if Get(m, k).Some? then Get(m, k) else Get(d, k)
    decreases |m|
  {
    if m != [] {
      var d' := Assign(d, m[0].0, m[0].1);
      AssignGet(d, m[0].0, m[0].1);
      assert UniqueKeys(m[1..]);
      UpdateGet(d', m[1..], k);
      if k == m[0].0 {
        assert k !in Keys(m[1..]);
      }
    }
  }

  lemma {:induction false} UpdateUnique<K, V>(d: Dict<K, V>, m: Dict<K, V>)
    requires UniqueKeys(d)
    ensures UniqueKeys(Update(d, m))
    decreases |m|
  {
    if m != [] {
      AssignGet(d, m[0].0, m[0].1);
      UpdateUnique(Assign(d, m[0].0, m[0].1), m[1..]);
    }
  }

  /** "First map wins": the merged dict answers every key as the first map
      holding it does, and holds no key twice. */
  lemma {:induction false} ChainMapGet<K, V>(ms: seq<Dict<K, V>>, k: K)
    requires forall i :: 0 <= i < |ms| ==> UniqueKeys(ms[i])
    ensures Get(ChainMap(ms), k) == FirstGet(ms, k)
    ensures UniqueKeys(ChainMap(ms))
  {
    if ms != [] {
      ChainMapGet(ms[1..], k);
      UpdateGet(ChainMap(ms[1..]), ms[0], k);
      UpdateUnique(ChainMap(ms[1..]), ms[0]);
    }
  }
}
