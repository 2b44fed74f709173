/** Per-slot estimator bookkeeping for conditional contextual bandits
    (ccb/estimators.py). The inner contextual-bandit estimator is abstracted
    as the sequence of samples it has been given: `add` appends one sample,
    `+` concatenates, and a fresh estimator is empty. */
module CcbEstimators {
  import opened Wrappers
  import Text
  import Dicts

  /** One observation: reward, logged probability, probability, count. */
  datatype Sample = Sample(r: real, pLog: real, p: real, n: real)

  /** The inner estimator, as the samples it holds. */
  type Estimator = seq<Sample>

  function Min(a: int, b: int): int { if a < b then a else b }

  function Max(a: int, b: int): int { if a < b then b else a }

  // ---------------------------------------------------------------------------
  // first_slot_estimator

  /** `first_slot_estimator`: only the first slot of each decision is kept. */
  class FirstSlotEstimator {
    var impl: Estimator

    constructor (impl: Estimator)
      ensures this.impl == impl
    {
      this.impl := impl;
    }

    /** `add(r, p_log, p, n)`: forward element 0 of each list; an empty list
        raises `IndexError` before anything is added. */
    method Add(r: seq<real>, pLog: seq<real>, p: seq<real>, n: real) returns (err: Option<PyError>)
      modifies this
      ensures err == (if |r| == 0 || |pLog| == 0 || |p| == 0 then Some(IndexError) else None)
      ensures err.None? ==> impl == old(impl) + [Sample(r[0], pLog[0], p[0], n)]
      ensures err.Some? ==> impl == old(impl)
    {
      if |r| == 0 || |pLog| == 0 || |p| == 0 {
        return Some(IndexError);
      }
      impl := impl + [Sample(r[0], pLog[0], p[0], n)];
      return None;
    }

    /** `__add__`: a new estimator around the sum of the two inner ones. */
    method Plus(other: FirstSlotEstimator) returns (res: FirstSlotEstimator)
      ensures fresh(res)
      ensures res.impl == impl + other.impl
    {
      res := new FirstSlotEstimator(impl + other.impl);
    }

    /** `get(...)`: whatever the inner estimator's `get` computes from its
        samples, unchanged. */
    method Get<R>(innerGet: Estimator -> R) returns (r: R)
      ensures r == innerGet(impl)
    {
      r := innerGet(impl);
    }
  }

  // ---------------------------------------------------------------------------
  // cb_estimator: specification on snapshots of `_slots`

  /** `_slots`: slot index to inner estimator, in insertion order. */
  type SlotDict = Dicts.Dict<int, Estimator>

  /** The keys of `_slots` are exactly `0 .. m-1`, inserted in that order. */
  ghost predicate Valid(d: SlotDict) {
    forall i :: 0 <= i < |d| ==> d[i].0 == i
  }

  /** The estimator of slot `k`, or a fresh (empty) one when there is none. */
  function SlotOr(d: SlotDict, k: int): Estimator {
    if 0 <= k < |d| then d[k].1 else []
  }

  /** How many slots `add` fills: it stops at the first index that one of
      `p_log` or `p` lacks. */
  function Filled(r: seq<real>, pLog: seq<real>, p: seq<real>): nat {
    Min(|r|, Min(|pLog|, |p|))
  }

  /** How many slots `add` touches: `setdefault` creates slot `s` before
      `p_log[s]` and `p[s]` are read, so a failing index is created too. */
  function Touched(r: seq<real>, pLog: seq<real>, p: seq<real>): nat {
    if Filled(r, pLog, p) < |r| then Filled(r, pLog, p) + 1 else |r|
  }

  /** The slots `0 .. m-1` after `add` has filled those below `filled`. */
  function Filling(d: SlotDict, m: nat, filled: nat,
                   r: seq<real>, pLog: seq<real>, p: seq<real>, n: real): (e: SlotDict)
    requires filled <= Min(|r|, Min(|pLog|, |p|))
    ensures Valid(e) && |e| == m
  {
    seq(m, k requires 0 <= k < m =>
      (k, SlotOr(d, k) + (if k < filled then [Sample(r[k], pLog[k], p[k], n)] else [])))
  }

  /** `cb_estimator.add(r, p_log, p, n)`: for each slot `s < len(r)` the
      sample `(r[s], p_log[s], p[s], n)` goes to slot `s`, created on first
      use; a short `p_log` or `p` raises `IndexError` at the first index it
      lacks, after the slots before it were filled and that slot created. */
  function AddSpec(d: SlotDict, r: seq<real>, pLog: seq<real>, p: seq<real>, n: real): (SlotDict, Option<PyError>)
    requires Valid(d)
  {
    (Filling(d, Max(|d|, Touched(r, pLog, p)), Filled(r, pLog, p), r, pLog, p, n),
     if Filled(r, pLog, p) < |r| then Some(IndexError) else None)
  }

  /** `cb_estimator.__add__`: the operand with more slots (on a tie, the
      right one) gives the keys; each slot holds its estimator followed by
      the other operand's estimator for the same key. */
  function PlusSpec(a: SlotDict, b: SlotDict): SlotDict
    requires Valid(a) && Valid(b)
  {
    var l := if |a| > |b| then a else b;
    var s := if |a| > |b| then b else a;
    seq(|l|, k requires 0 <= k < |l| => (k, l[k].1 + SlotOr(s, k)))
  }

  /** `result += self._slots[s]` for each key of `ks`, in order; the first
      missing key raises `KeyError`. */
  function Combine(d: SlotDict, ks: seq<int>): Result<Estimator> {
    if ks == [] then Ok([])
    else
      match Combine(d, ks[..|ks| - 1])
      case Err(e) => Err(e)
      case Ok(acc) =>
        var k := ks[|ks| - 1];
        match Dicts.Get(d, k)
        case None => Err(KeyError(Text.IntToString(k)))
        case Some(e) => Ok(acc + e)
  }

  /** `cb_estimator.get(slots=sel)` without weights: no selection raises (the
      source raises a string, which Python turns into a `TypeError`); an
      empty selection combines every slot in key order. */
  function SelectSpec(d: SlotDict, sel: Option<seq<int>>): Result<Estimator> {
    match sel
    case None => Err(TypeError)
    case Some(ks) => Combine(d, if ks == [] then Dicts.Keys(d) else ks)
  }

  /** One slot's share of the weighted sum: its weight times its estimate. */
  function Term(weight: real, estimate: real): real {
    weight * estimate
  }

  /** `get(weights=w)` over the first `n` slots: the sum, in key order, of
      each slot's weight times its inner estimate; the first inner `get` that
      raises ends the sum with its exception. */
  function WeightedSum(d: SlotDict, n: nat, w: (int, Estimator) -> real, innerGet: Estimator -> Result<real>): Result<real>
    requires n <= |d|
  {
    if n == 0 then Ok(0.0)
    else
      match WeightedSum(d, n - 1, w, innerGet)
      case Err(e) => Err(e)
      case Ok(acc) =>
        match innerGet(d[n - 1].1)
        case Err(e) => Err(e)
        case Ok(x) => Ok(acc + Term(w(d[n - 1].0, d[n - 1].1), x))
  }

  /** `cb_estimator.get(weights, slots, ...)`: weights take precedence;
      without them the selected slots are combined and the inner `get` is
      applied to the combination. */
  function GetSpec(d: SlotDict, weights: Option<(int, Estimator) -> real>, sel: Option<seq<int>>,
                   innerGet: Estimator -> Result<real>): Result<real>
  {
    match weights
    case Some(w) => WeightedSum(d, |d|, w, innerGet)
    case None =>
      var combined :- SelectSpec(d, sel);
      innerGet(combined)
  }

  /** In a valid dictionary slot `k` sits at position `k`. */
  lemma ValidLookup(d: SlotDict, k: int)
    requires Valid(d)
    ensures Dicts.UniqueKeys(d)
    ensures Dicts.Get(d, k) == if 0 <= k < |d| then Some(d[k].1) else None
  {
    if 0 <= k < |d| {
      Dicts.GetAt(d, k);
    } else {
      assert k !in Dicts.Keys(d);
    }
  }

  /** Assigning slot `k <= m` of a valid dictionary replaces position `k`, or
      appends slot `m`. */
  lemma ValidAssign(d: SlotDict, k: int, v: Estimator)
    requires Valid(d) && 0 <= k <= |d|
    ensures Dicts.Assign(d, k, v) == if k < |d| then d[k := (k, v)] else d + [(k, v)]
    ensures Valid(Dicts.Assign(d, k, v))
  {
    ValidLookup(d, k);
    if k < |d| {
      Dicts.AssignAt(d, k, v);
    } else {
      assert k !in Dicts.Keys(d);
      Dicts.AssignFresh(d, k, v);
    }
  }

  lemma FillingGrow(d: SlotDict, m: nat, filled: nat,
                    r: seq<real>, pLog: seq<real>, p: seq<real>, n: real)
    requires filled <= m && filled <= Min(|r|, Min(|pLog|, |p|)) && m >= |d|
    ensures Filling(d, m + 1, filled, r, pLog, p, n) == Filling(d, m, filled, r, pLog, p, n) + [(m, [])]
  {
    var a, b := Filling(d, m + 1, filled, r, pLog, p, n), Filling(d, m, filled, r, pLog, p, n) + [(m, [])];
    forall k | 0 <= k <= m
      ensures a[k] == b[k]
    {
      var e := SlotOr(d, k) + (if k < filled then [Sample(r[k], pLog[k], p[k], n)] else []);
      assert a[k] == (k, e);
      if k < m {
        assert b[k] == Filling(d, m, filled, r, pLog, p, n)[k];
        assert b[k] == (k, e);
      } else {
        assert e == [];
      }
    }
  }

  /** `setdefault(s)` before filling slot `s` yields the slots `0 .. s`. */
  lemma FillingSetDefault(d: SlotDict, s: nat, r: seq<real>, pLog: seq<real>, p: seq<real>, n: real)
    requires s < |r| && s <= |pLog| && s <= |p|
    ensures var e := Filling(d, Max(|d|, s), s, r, pLog, p, n);
      (if s < |e| then e else e + [(s, [])]) == Filling(d, Max(|d|, s + 1), s, r, pLog, p, n)
  {
    if s >= |d| {
      FillingGrow(d, s, s, r, pLog, p, n);
    }
  }

  lemma FillingStep(d: SlotDict, m: nat, filled: nat,
                    r: seq<real>, pLog: seq<real>, p: seq<real>, n: real)
    requires filled < m && filled < Min(|r|, Min(|pLog|, |p|))
    ensures var e := Filling(d, m, filled, r, pLog, p, n);
      Filling(d, m, filled + 1, r, pLog, p, n) ==
        e[filled := (filled, e[filled].1 + [Sample(r[filled], pLog[filled], p[filled], n)])]
  {
    var e := Filling(d, m, filled, r, pLog, p, n);
    var a, b := Filling(d, m, filled + 1, r, pLog, p, n),
      e[filled := (filled, e[filled].1 + [Sample(r[filled], pLog[filled], p[filled], n)])];
    forall k | 0 <= k < m
      ensures a[k] == b[k]
    {
      if k == filled {
        assert e[k].1 == SlotOr(d, k) + [];
        assert SlotOr(d, k) + [] == SlotOr(d, k);
        assert b[k].1 == e[filled].1 + [Sample(r[filled], pLog[filled], p[filled], n)];
      } else {
        assert a[k] == e[k];
        assert b[k] == e[k];
      }
    }
  }

  /** `add` stops at the first slot `s` that `p_log` or `p` lacks. */
  lemma AddSpecFails(d: SlotDict, s: nat, r: seq<real>, pLog: seq<real>, p: seq<real>, n: real)
    requires Valid(d)
    requires s < |r| && s <= |pLog| && s <= |p| && (s == |pLog| || s == |p|)
    ensures AddSpec(d, r, pLog, p, n) == (Filling(d, Max(|d|, s + 1), s, r, pLog, p, n), Some(IndexError))
  {
    assert Filled(r, pLog, p) == s;
  }

  /** `add` that reaches the end of `r` fills every slot below `len(r)`. */
  lemma AddSpecDone(d: SlotDict, r: seq<real>, pLog: seq<real>, p: seq<real>, n: real)
    requires Valid(d) && |r| <= |pLog| && |r| <= |p|
    ensures AddSpec(d, r, pLog, p, n) == (Filling(d, Max(|d|, |r|), |r|, r, pLog, p, n), None)
  {
    assert Filled(r, pLog, p) == |r|;
  }

  /** Before anything is filled, the slots are those of the valid `d`. */
  lemma FillingNothing(d: SlotDict, r: seq<real>, pLog: seq<real>, p: seq<real>, n: real)
    requires Valid(d)
    ensures Filling(d, |d|, 0, r, pLog, p, n) == d
  {
    var a := Filling(d, |d|, 0, r, pLog, p, n);
    forall k | 0 <= k < |d|
      ensures a[k] == d[k]
    {
      assert d[k].1 + [] == d[k].1;
    }
  }

  /** The larger operand's slots after the first `i` slots of the smaller
      one were added to them. */
  function Merged(l: SlotDict, s: SlotDict, i: nat): (e: SlotDict)
    requires i <= |s| <= |l|
    ensures |e| == |l| && Valid(e)
  {
    seq(|l|, k requires 0 <= k < |l| => (k, l[k].1 + (if k < i then s[k].1 else [])))
  }

  lemma MergedNothing(l: SlotDict, s: SlotDict)
    requires Valid(l) && |s| <= |l|
    ensures Merged(l, s, 0) == l
  {
    var e := Merged(l, s, 0);
    forall k | 0 <= k < |l|
      ensures e[k] == l[k]
    {
      assert l[k].1 + [] == l[k].1;
    }
  }

  lemma MergedStep(l: SlotDict, s: SlotDict, i: nat)
    requires Valid(s) && i < |s| <= |l|
    ensures var e := Merged(l, s, i);
      Merged(l, s, i + 1) == e[i := (i, e[i].1 + s[i].1)]
  {
    var e := Merged(l, s, i);
    var a, b := Merged(l, s, i + 1), e[i := (i, e[i].1 + s[i].1)];
    forall k | 0 <= k < |l|
      ensures a[k] == b[k]
    {
      if k == i {
        assert e[k].1 == l[k].1 + [];
        assert l[k].1 + [] == l[k].1;
      } else {
        assert a[k] == e[k];
      }
    }
  }

  /** Adding all of the smaller operand gives `PlusSpec`. */
  lemma MergedAll(a: SlotDict, b: SlotDict)
    requires Valid(a) && Valid(b)
    ensures var l := if |a| > |b| then a else b;
      var s := if |a| > |b| then b else a;
      Merged(l, s, |s|) == PlusSpec(a, b)
  {
    var l := if |a| > |b| then a else b;
    var s := if |a| > |b| then b else a;
    var e, f := Merged(l, s, |s|), PlusSpec(a, b);
    forall k | 0 <= k < |l|
      ensures e[k] == f[k]
    {
      assert f[k] == (k, l[k].1 + SlotOr(s, k));
      if k < |s| {
        assert e[k] == (k, l[k].1 + s[k].1);
      } else {
        assert e[k] == (k, l[k].1 + []);
      }
    }
  }

  // ---------------------------------------------------------------------------
  // cb_estimator: the class

  /** `result._slots[k] = result._impl(); result._slots[k] += v` for the
      next key `k` of a valid dictionary. */
  method NewSlot(acc: SlotDict, k: int, v: Estimator) returns (r: SlotDict)
    requires Valid(acc) && k == |acc|
    ensures r == acc + [(k, v)]
  {
    ValidAssign(acc, k, []);
    var created := Dicts.Assign(acc, k, []);
    assert created == acc + [(k, [])] && created[k].1 + v == v;
    r := AddToSlot(created, k, v);
    ReplaceLast(acc, (k, []), (k, v));
  }

  /** Replacing the element just appended is appending the replacement. */
  lemma ReplaceLast<T>(s: seq<T>, x: T, y: T)
    ensures (s + [x])[|s| := y] == s + [y]
  {
    var a, b := (s + [x])[|s| := y], s + [y];
    assert |a| == |b|;
    forall i | 0 <= i < |a|
      ensures a[i] == b[i]
    {
    }
  }

  /** `_slots.setdefault(k, self._impl())` for a key `k <= m` of a valid
      dictionary: slot `m` is created empty, an existing slot is kept. */
  method SetDefault(acc: SlotDict, k: int) returns (r: SlotDict)
    requires Valid(acc) && 0 <= k <= |acc|
    ensures r == if k < |acc| then acc else acc + [(k, [])]
  {
    ValidLookup(acc, k);
    r := acc;
    if Dicts.Get(acc, k).None? {
      ValidAssign(acc, k, []);
      r := Dicts.Assign(acc, k, []);
    }
  }

  /** `result._slots[k] += v` for a slot `k` that exists. */
  method AddToSlot(acc: SlotDict, k: int, v: Estimator) returns (r: SlotDict)
    requires Valid(acc) && 0 <= k < |acc|
    ensures r == acc[k := (k, acc[k].1 + v)]
  {
    ValidLookup(acc, k);
    ValidAssign(acc, k, Dicts.Get(acc, k).value + v);
    r := Dicts.Assign(acc, k, Dicts.Get(acc, k).value + v);
  }

  /** `cb_estimator`: an estimator per slot, in a dictionary that grows by
      `setdefault`. */
  class CbEstimator {
    var slots: SlotDict

    constructor ()
      ensures slots == []
    {
      slots := [];
    }

    method Add(r: seq<real>, pLog: seq<real>, p: seq<real>, n: real) returns (err: Option<PyError>)
      requires Valid(slots)
      modifies this
      ensures Valid(slots)
      ensures (slots, err) == AddSpec(old(slots), r, pLog, p, n)
    {
      ghost var d := slots;
      FillingNothing(d, r, pLog, p, n);
      var s := 0;
      while s < |r|
        invariant 0 <= s <= |r| && s <= |pLog| && s <= |p|
        invariant slots == Filling(d, Max(|d|, s), s, r, pLog, p, n)
      {
        FillingSetDefault(d, s, r, pLog, p, n);
        slots := SetDefault(slots, s);
        if s >= |pLog| || s >= |p| {
          AddSpecFails(d, s, r, pLog, p, n);
          return Some(IndexError);
        }
        FillingStep(d, Max(|d|, s + 1), s, r, pLog, p, n);
        slots := AddToSlot(slots, s, [Sample(r[s], pLog[s], p[s], n)]);
        s := s + 1;
      }
      AddSpecDone(d, r, pLog, p, n);
      return None;
    }

    method Plus(other: CbEstimator) returns (res: CbEstimator)
      requires Valid(slots) && Valid(other.slots)
      ensures fresh(res)
      ensures res.slots == PlusSpec(slots, other.slots)
      ensures Valid(res.slots)
    {
      var l, s := other.slots, slots;
      if |slots| > |other.slots| {
        l, s := slots, other.slots;
      }
      res := new CbEstimator();
      var acc := res.slots;
      for i := 0 to |l|
        invariant acc == l[..i]
      {
        acc := NewSlot(acc, l[i].0, l[i].1);
        assert l[..i + 1] == l[..i] + [l[i]];
      }
      assert l[..|l|] == l;
      MergedNothing(l, s);
      for i := 0 to |s|
        invariant acc == Merged(l, s, i)
      {
        MergedStep(l, s, i);
        acc := AddToSlot(acc, s[i].0, s[i].1);
      }
      MergedAll(slots, other.slots);
      PlusTotal(slots, other.slots);
      res.slots := acc;
    }

    /** `get(weights, slots, ...)`: the weighted sum of the slots' inner
        estimates, or the inner estimate of the selected slots combined. */
    method Get(weights: Option<(int, Estimator) -> real>, sel: Option<seq<int>>,
               innerGet: Estimator -> Result<real>) returns (res: Result<real>)
      ensures res == GetSpec(slots, weights, sel, innerGet)
    {
      if weights.Some? {
        var d, w := slots, weights.value;
        var total := 0.0;
        for i := 0 to |d|
          invariant WeightedSum(d, i, w, innerGet) == Ok(total)
        {
          var x := innerGet(d[i].1);
          WeightedStep(d, i, w, innerGet);
          if x.Err? {
            WeightedErrPrefix(d, w, innerGet, i + 1);
            return Err(x.error);
          }
          total := total + Term(w(d[i].0, d[i].1), x.value);
        }
        return Ok(total);
      }
      if sel.None? {
        return Err(TypeError);
      }
      var ks := if sel.value == [] then Dicts.Keys(slots) else sel.value;
      var result: Estimator := [];
      for i := 0 to |ks|
        invariant Combine(slots, ks[..i]) == Ok(result)
      {
        assert ks[..i + 1][..i] == ks[..i];
        var e := Dicts.Get(slots, ks[i]);
        if e.None? {
          CombineErrPrefix(slots, ks, i + 1);
          return Err(KeyError(Text.IntToString(ks[i])));
        }
        result := result + e.value;
      }
      assert ks[..|ks|] == ks;
      return innerGet(result);
    }
  }

  // ---------------------------------------------------------------------------
  // Properties

  /** `add` keeps the key invariant; it fails exactly when `p_log` or `p` is
      shorter than `r`, and when it succeeds the slots are
      `0 .. max(m, len(r)) - 1`. */
  lemma AddKeys(d: SlotDict, r: seq<real>, pLog: seq<real>, p: seq<real>, n: real)
    requires Valid(d)
    ensures Valid(AddSpec(d, r, pLog, p, n).0)
    ensures AddSpec(d, r, pLog, p, n).1.Some? <==> |pLog| < |r| || |p| < |r|
    ensures AddSpec(d, r, pLog, p, n).1.None? ==> |AddSpec(d, r, pLog, p, n).0| == Max(|d|, |r|)
  {
  }

  /** On success slot `s < len(r)` gains exactly `(r[s], p_log[s], p[s], n)`
      and every other slot is unchanged. */
  lemma AddSlots(d: SlotDict, r: seq<real>, pLog: seq<real>, p: seq<real>, n: real, k: int)
    requires Valid(d) && AddSpec(d, r, pLog, p, n).1.None?
    requires 0 <= k < |AddSpec(d, r, pLog, p, n).0|
    ensures AddSpec(d, r, pLog, p, n).0[k].1 ==
      if k < |r| then SlotOr(d, k) + [Sample(r[k], pLog[k], p[k], n)] else d[k].1
  {
  }

  /** The samples held by slots `0 .. m-1`, as a multiset. */
  function Total(d: SlotDict, m: nat): multiset<Sample> {
    if m == 0 then multiset{} else Total(d, m - 1) + multiset(SlotOr(d, m - 1))
  }

  /** Combining the keys `0 .. m-1` of a valid dictionary yields every sample
      of those slots. */
  lemma {:induction false} CombineKeys(d: SlotDict, m: nat)
    requires Valid(d) && m <= |d|
    ensures Combine(d, Dicts.Keys(d)[..m]).Ok?
    ensures multiset(Combine(d, Dicts.Keys(d)[..m]).value) == Total(d, m)
  {
    if m > 0 {
      var ks := Dicts.Keys(d)[..m];
      assert ks[..m - 1] == Dicts.Keys(d)[..m - 1];
      assert ks[m - 1] == m - 1;
      CombineKeys(d, m - 1);
      ValidLookup(d, m - 1);
      var acc := Combine(d, ks[..m - 1]).value;
      assert Combine(d, ks) == Ok(acc + d[m - 1].1);
      assert multiset(acc + d[m - 1].1) == multiset(acc) + multiset(d[m - 1].1);
    }
  }

  /** `get(slots=[])` combines all slots and loses none of their samples. */
  lemma SelectAll(d: SlotDict)
    requires Valid(d)
    ensures SelectSpec(d, Some([])).Ok?
    ensures multiset(SelectSpec(d, Some([])).value) == Total(d, |d|)
  {
    CombineKeys(d, |d|);
    assert Dicts.Keys(d)[..|d|] == Dicts.Keys(d);
  }

  /** Once a prefix of the keys raises, the whole combination raises the same. */
  lemma {:induction false} CombineErrPrefix(d: SlotDict, ks: seq<int>, j: nat)
    requires j <= |ks| && Combine(d, ks[..j]).Err?
    ensures Combine(d, ks) == Combine(d, ks[..j])
    decreases |ks| - j
  {
    if j == |ks| {
      assert ks[..j] == ks;
    } else {
      assert ks[..j + 1][..j] == ks[..j];
      CombineErrPrefix(d, ks, j + 1);
    }
  }

  /** One more slot after a sum that succeeded. */
  lemma WeightedStep(d: SlotDict, n: nat, w: (int, Estimator) -> real, innerGet: Estimator -> Result<real>)
    requires n < |d| && WeightedSum(d, n, w, innerGet).Ok?
    ensures var x := innerGet(d[n].1);
      WeightedSum(d, n + 1, w, innerGet) ==
        if x.Err? then Err(x.error) else Ok(WeightedSum(d, n, w, innerGet).value + Term(w(d[n].0, d[n].1), x.value))
  {
  }

  /** Once the first `j` slots raise, the whole weighted sum raises the same. */
  lemma {:induction false} WeightedErrPrefix(d: SlotDict, w: (int, Estimator) -> real,
                                            innerGet: Estimator -> Result<real>, j: nat)
    requires j <= |d| && WeightedSum(d, j, w, innerGet).Err?
    ensures WeightedSum(d, |d|, w, innerGet) == WeightedSum(d, j, w, innerGet)
    decreases |d| - j
  {
    if j < |d| {
      WeightedErrPrefix(d, w, innerGet, j + 1);
    }
  }

  /** `get(weights=w)` over the first `n` slots succeeds exactly when each of
      their inner `get`s does, whatever the weights. */
  lemma {:induction false} WeightedSumOk(d: SlotDict, n: nat, w: (int, Estimator) -> real,
                                        innerGet: Estimator -> Result<real>)
    requires n <= |d|
    ensures WeightedSum(d, n, w, innerGet).Ok? <==> forall i :: 0 <= i < n ==> innerGet(d[i].1).Ok?
  {
    if n > 0 {
      WeightedSumOk(d, n - 1, w, innerGet);
    }
  }

  /** The exception of `get(weights=w)` is that of the first slot whose inner
      `get` raises. */
  lemma WeightedSumFirstError(d: SlotDict, w: (int, Estimator) -> real, innerGet: Estimator -> Result<real>, j: nat)
    requires j < |d| && innerGet(d[j].1).Err?
    requires forall i :: 0 <= i < j ==> innerGet(d[i].1).Ok?
    ensures WeightedSum(d, |d|, w, innerGet) == Err(innerGet(d[j].1).error)
  {
    WeightedSumOk(d, j, w, innerGet);
    WeightedErrPrefix(d, w, innerGet, j + 1);
  }

  /** `get(slots=S)` succeeds exactly when every key of `S` is a slot. */
  lemma {:induction false} CombineOk(d: SlotDict, ks: seq<int>)
    ensures Combine(d, ks).Ok? <==> forall i :: 0 <= i < |ks| ==> ks[i] in Dicts.Keys(d)
  {
    if ks != [] {
      var init, k := ks[..|ks| - 1], ks[|ks| - 1];
      CombineOk(d, init);
      assert Combine(d, ks).Ok? <==> Combine(d, init).Ok? && Dicts.Get(d, k).Some?;
      assert (forall i :: 0 <= i < |ks| ==> ks[i] in Dicts.Keys(d)) <==>
        (forall i :: 0 <= i < |init| ==> init[i] in Dicts.Keys(d)) && k in Dicts.Keys(d);
    }
  }

  /** Slots from `|d|` on are empty. */
  lemma {:induction false} TotalBeyond(d: SlotDict, m: nat)
    requires m >= |d|
    ensures Total(d, m) == Total(d, |d|)
  {
    if m > |d| {
      TotalBeyond(d, m - 1);
    }
  }

  lemma Regroup(a: multiset<Sample>, b: multiset<Sample>, x: multiset<Sample>, y: multiset<Sample>)
    ensures (a + b) + (x + y) == (a + x) + (b + y)
  {
  }

  /** The samples of the first `m` slots of `merged` are those of `l` and `s`. */
  ghost predicate TotalSplit(merged: SlotDict, l: SlotDict, s: SlotDict, m: nat) {
    Total(merged, m) == Total(l, m) + Total(s, m)
  }

  lemma TotalMerge(merged: SlotDict, l: SlotDict, s: SlotDict, m: nat)
    requires m <= |merged|
    requires forall k {:trigger merged[k]} :: 0 <= k < m ==> merged[k].1 == SlotOr(l, k) + SlotOr(s, k)
    ensures TotalSplit(merged, l, s, m)
  {
    assert TotalSplit(merged, l, s, 0);
    for i := 0 to m
      invariant TotalSplit(merged, l, s, i)
    {
      // the step's preconditions, written at the index the step is given
      assert 0 < i + 1 <= |merged|;
      assert TotalSplit(merged, l, s, i + 1 - 1);
      assert merged[i + 1 - 1].1 == SlotOr(l, i + 1 - 1) + SlotOr(s, i + 1 - 1);
      TotalMergeStep(merged, l, s, i + 1);
    }
  }

  lemma TotalMergeStep(merged: SlotDict, l: SlotDict, s: SlotDict, m: nat)
    requires 0 < m <= |merged|
    requires TotalSplit(merged, l, s, m - 1)
    requires merged[m - 1].1 == SlotOr(l, m - 1) + SlotOr(s, m - 1)
    ensures TotalSplit(merged, l, s, m)
  {
    TotalStep(Total(merged, m - 1), Total(l, m - 1), Total(s, m - 1), SlotOr(l, m - 1), SlotOr(s, m - 1));
  }

  /** One step of `TotalMerge`, stated on its parts alone. */
  lemma TotalStep(t: multiset<Sample>, a: multiset<Sample>, b: multiset<Sample>, x: Estimator, y: Estimator)
    requires t == a + b
    ensures t + multiset(x + y) == (a + multiset(x)) + (b + multiset(y))
  {
    assert multiset(x + y) == multiset(x) + multiset(y);
    Regroup(a, b, multiset(x), multiset(y));
  }

  /** Merging two estimators keeps the key invariant, has as many slots as
      the larger operand, and neither loses nor duplicates a sample. */
  lemma PlusTotal(a: SlotDict, b: SlotDict)
    requires Valid(a) && Valid(b)
    ensures Valid(PlusSpec(a, b))
    ensures |PlusSpec(a, b)| == Max(|a|, |b|)
    ensures Total(PlusSpec(a, b), |PlusSpec(a, b)|) == Total(a, |a|) + Total(b, |b|)
  {
    var m := Max(|a|, |b|);
    if |a| > |b| {
      TotalMerge(PlusSpec(a, b), a, b, m);
    } else {
      TotalMerge(PlusSpec(a, b), b, a, m);
    }
    TotalBeyond(a, m);
    TotalBeyond(b, m);
  }
}
