/** Feature rendering for Vowpal Wabbit's text format and example generation
    (vw_sim/core.py): a nested feature dictionary is flattened into namespaces,
    each namespace is rendered as `name k=v k:v `, and a feature template whose
    leaves may be generators is evaluated at an example index. */
module VwCore {
  import opened Wrappers
  import opened Text
  import Dicts

  /** A Python scalar. A float carries the text `str()` gives for it. */
  datatype Atom = Str(s: string) | Int(i: int) | Float(text: string) | Bool(b: bool) | NoneValue

  /** A JSON-like Python object: a scalar, a list, or a dict (insertion ordered). */
  datatype Value = Leaf(atom: Atom) | List(items: seq<Value>) | Dict(entries: seq<(string, Value)>)

  /** `str(x)` for a scalar. */
  function AtomText(a: Atom): string {
    match a
    case Str(s) => s
    case Int(i) => IntToString(i)
    case Float(t) => t
    case Bool(b) => if b then "True" else "False"
    case NoneValue => "None"
  }

  // ---------------------------------------------------------------------------
  // _flat_2_text

  /** A flat feature dictionary: no value is itself a dictionary. */
  predicate Flat(f: seq<(string, Value)>) {
    forall j :: 0 <= j < |f| ==> !f[j].1.Dict?
  }

  /** `_kv_2_str(k, v)`: `k=v` for a string, `NotImplementedError` for a list,
      `k:v` for any other scalar. */
  function KvText(k: string, v: Value): Result<string>
    requires !v.Dict?
  {
    match v
    case List(_) => Err(NotImplementedError)
    case Leaf(a) => if a.Str? then Ok(k + "=" + a.s) else Ok(k + ":" + AtomText(a))
  }

  /** `_flat_2_text(features)`: the items rendered in dictionary order and
      joined by single spaces; the first list-valued item raises. */
  function FlatText(f: seq<(string, Value)>): Result<string>
    requires Flat(f)
  {
    match Collect(seq(|f|, j requires 0 <= j < |f| => KvText(f[j].0, f[j].1)))
    case Err(e) => Err(e)
    case Ok(parts) => Ok(Join(" ", parts))
  }

  /** Rendering fails exactly when some feature value is a list, and then with
      `NotImplementedError`. */
  lemma FlatTextFails(f: seq<(string, Value)>)
    requires Flat(f)
    ensures FlatText(f).Err? <==> exists j :: 0 <= j < |f| && f[j].1.List?
    ensures FlatText(f).Err? ==> FlatText(f).error == NotImplementedError
  {
    var rs := seq(|f|, j requires 0 <= j < |f| => KvText(f[j].0, f[j].1));
    if FlatText(f).Err? {
      var j :| 0 <= j < |rs| && rs[j] == Err(Collect(rs).error);
      assert f[j].1.List?;
    } else {
      forall j | 0 <= j < |f|
        ensures !f[j].1.List?
      {
        assert rs[j].Ok?;
      }
    }
  }

  /** A single string feature renders as `k=v`, any other scalar as `k:v`. */
  lemma FlatTextSingle(k: string, a: Atom)
    ensures FlatText([(k, Leaf(a))]) == Ok(if a.Str? then k + "=" + a.s else k + ":" + AtomText(a))
  {
    var rs := seq(1, j requires 0 <= j < 1 => KvText([(k, Leaf(a))][j].0, [(k, Leaf(a))][j].1));
    assert rs == [KvText(k, Leaf(a))];
  }

  /** The text of a concatenation is the two texts joined by one space: the
      items appear in dictionary order, separated by single spaces. */
  lemma FlatTextAppend(a: seq<(string, Value)>, b: seq<(string, Value)>)
    requires Flat(a) && Flat(b) && a != [] && b != []
    requires FlatText(a).Ok? && FlatText(b).Ok?
    ensures Flat(a + b)
    ensures FlatText(a + b) == Ok(FlatText(a).value + " " + FlatText(b).value)
  {
    var ra := seq(|a|, j requires 0 <= j < |a| => KvText(a[j].0, a[j].1));
    var rb := seq(|b|, j requires 0 <= j < |b| => KvText(b[j].0, b[j].1));
    var ab := a + b;
    var rab := seq(|ab|, j requires 0 <= j < |ab| => KvText(ab[j].0, ab[j].1));
    assert rab == ra + rb;
    CollectAppend(ra, rb);
    JoinAppend(" ", Collect(ra).value, Collect(rb).value);
  }

  // ---------------------------------------------------------------------------
  // Features._namespaces

  /** Namespace name to flat feature dictionary, in insertion order. */
  type NsMap = seq<(string, seq<(string, Value)>)>

  /** `if key not in result: result[key] = {}` then `result[key][k] = v`. */
  function Put(acc: NsMap, ns: string, k: string, v: Value): NsMap {
    var inner := match Dicts.Get(acc, ns) case None => [] case Some(m) => m;
    Dicts.Assign(acc, ns, Dicts.Assign(inner, k, v))
  }

  /** `_namespaces(d, key, acc)` for a dictionary `d`, from its entry `j` on:
      a dictionary value is flattened under its own key, any other value is
      stored under `key`, the key of the dictionary that holds it. */
  function NsFrom(d: Value, j: nat, key: string, acc: NsMap): NsMap
    requires d.Dict? && j <= |d.entries|
    decreases d, |d.entries| - j
  {
    if j == |d.entries| then acc
    else
      var k, v := d.entries[j].0, d.entries[j].1;
      NsFrom(d, j + 1, key, if v.Dict? then NsFrom(v, 0, k, acc) else Put(acc, key, k, v))
  }

  /** `Features._namespaces(d, key, result)`: a list raises, a scalar adds nothing. */
  function NsOf(d: Value, key: string, acc: NsMap): Result<NsMap> {
    if d.List? then Err(NotImplementedError)
    else if d.Dict? then Ok(NsFrom(d, 0, key, acc))
    else Ok(acc)
  }

  /** The imperative `_namespaces`: a loop over the items that recurses into
      dictionary values and updates the accumulator in place. */
  method Namespaces(d: Value, key: string, acc: NsMap) returns (r: Result<NsMap>)
    ensures r == NsOf(d, key, acc)
    decreases d
  {
    var result := acc;
    if d.Dict? {
      var j := 0;
      while j < |d.entries|
        invariant 0 <= j <= |d.entries|
        invariant NsFrom(d, 0, key, acc) == NsFrom(d, j, key, result)
        decreases |d.entries| - j
      {
        var k, v := d.entries[j].0, d.entries[j].1;
        NsFromStep(d, j, key, result);
        if v.Dict? {
          var sub := Namespaces(v, k, result);
          result := sub.value;
        } else {
          result := StoreLeaf(result, key, k, v);
        }
        j := j + 1;
      }
    }
    if d.List? {
      return Err(NotImplementedError);
    }
    return Ok(result);
  }

  /** One item of the loop in `_namespaces`. */
  lemma NsFromStep(d: Value, j: nat, key: string, acc: NsMap)
    requires d.Dict? && j < |d.entries|
    ensures var k, v := d.entries[j].0, d.entries[j].1;
      NsFrom(d, j, key, acc) ==
        NsFrom(d, j + 1, key, if v.Dict? then NsFrom(v, 0, k, acc) else Put(acc, key, k, v))
  {
  }

  /** The leaf branch of `_namespaces`: create the namespace when it is
      missing, then set the feature inside it. */
  method StoreLeaf(acc: NsMap, ns: string, k: string, v: Value) returns (result: NsMap)
    ensures result == Put(acc, ns, k, v)
  {
    result := acc;
    if ns !in Dicts.Keys(result) {
      result := Dicts.Assign(result, ns, []);
      Dicts.AssignGet(acc, ns, []);
      Dicts.AssignTwice(acc, ns, [], Dicts.Assign([], k, v));
    }
    var inner := Dicts.Get(result, ns).value;
    result := Dicts.Assign(result, ns, Dicts.Assign(inner, k, v));
  }

  /** A leaf met while flattening: (namespace, feature, value). */
  type LeafEntry = (string, string, Value)

  /** The non-dictionary values of `d` from entry `j` on, in the order the
      flattening meets them, each tagged with the key of the dictionary
      immediately enclosing it. */
  function LeavesFrom(d: Value, j: nat, key: string): (ls: seq<LeafEntry>)
    requires d.Dict? && j <= |d.entries|
    ensures forall m :: 0 <= m < |ls| ==> !ls[m].2.Dict?
    decreases d, |d.entries| - j
  {
    if j == |d.entries| then []
    else
      var k, v := d.entries[j].0, d.entries[j].1;
      (if v.Dict? then LeavesFrom(v, 0, k) else [(key, k, v)]) + LeavesFrom(d, j + 1, key)
  }

  /** Store the leaves one after the other. */
  function PutAll(acc: NsMap, ls: seq<LeafEntry>): NsMap {
    if ls == [] then acc
    else
      var l := ls[|ls| - 1];
      Put(PutAll(acc, ls[..|ls| - 1]), l.0, l.1, l.2)
  }

  /** `result[ns][k]`, or `None` when either key is absent. */
  function Lookup(m: NsMap, ns: string, k: string): Option<Value> {
    match Dicts.Get(m, ns)
    case None => None
    case Some(inner) => Dicts.Get(inner, k)
  }

  /** The value of the last leaf stored under namespace `ns` and feature `k`. */
  function LastValue(ls: seq<LeafEntry>, ns: string, k: string): Option<Value> {
    if ls == [] then None
    else if ls[|ls| - 1].0 == ns && ls[|ls| - 1].1 == k then Some(ls[|ls| - 1].2)
    else LastValue(ls[..|ls| - 1], ns, k)
  }

  lemma {:induction false} PutAllAppend(acc: NsMap, a: seq<LeafEntry>, b: seq<LeafEntry>)
    ensures PutAll(acc, a + b) == PutAll(PutAll(acc, a), b)
    decreases |b|
  {
    if b == [] {
      assert a + b == a;
    } else {
      assert (a + b)[..|a + b| - 1] == a + b[..|b| - 1];
      PutAllAppend(acc, a, b[..|b| - 1]);
    }
  }

  /** Flattening is storing the leaves in traversal order. */
  lemma {:induction false} NsFromLeaves(d: Value, j: nat, key: string, acc: NsMap)
    requires d.Dict? && j <= |d.entries|
    ensures NsFrom(d, j, key, acc) == PutAll(acc, LeavesFrom(d, j, key))
    decreases d, |d.entries| - j
  {
    if j < |d.entries| {
      var k, v := d.entries[j].0, d.entries[j].1;
      var rest := LeavesFrom(d, j + 1, key);
      if v.Dict? {
        NsFromLeaves(v, 0, k, acc);
        var acc' := NsFrom(v, 0, k, acc);
        NsFromLeaves(d, j + 1, key, acc');
        PutAllAppend(acc, LeavesFrom(v, 0, k), rest);
      } else {
        var acc' := Put(acc, key, k, v);
        assert PutAll(acc, [(key, k, v)]) == acc' by {
          assert [(key, k, v)][..0] == [];
        }
        NsFromLeaves(d, j + 1, key, acc');
        PutAllAppend(acc, [(key, k, v)], rest);
      }
    }
  }

  /** Storing one leaf sets that (namespace, feature) pair and no other. */
  lemma PutLookup(acc: NsMap, ns: string, k: string, v: Value, ns': string, k': string)
    ensures Lookup(Put(acc, ns, k, v), ns', k') ==
      if ns' == ns && k' == k then Some(v) else Lookup(acc, ns', k')
  {
    var inner := match Dicts.Get(acc, ns) case None => [] case Some(m) => m;
    var inner' := Dicts.Assign(inner, k, v);
    assert Put(acc, ns, k, v) == Dicts.Assign(acc, ns, inner');
    if ns' == ns {
      Dicts.AssignGetSame(acc, ns, inner');
      if k' == k {
        Dicts.AssignGetSame(inner, k, v);
      } else {
        Dicts.AssignGetOther(inner, k, v, k');
      }
    } else {
      Dicts.AssignGetOther(acc, ns, inner', ns');
    }
  }

  /** For each (namespace, feature) pair the last leaf stored wins; pairs no
      leaf mentions keep what the accumulator had. */
  lemma {:induction false} PutAllLookup(acc: NsMap, ls: seq<LeafEntry>, ns: string, k: string)
    ensures Lookup(PutAll(acc, ls), ns, k) ==
      match LastValue(ls, ns, k) case Some(v) => Some(v) case None => Lookup(acc, ns, k)
  {
    if ls != [] {
      var l := ls[|ls| - 1];
      PutAllLookup(acc, ls[..|ls| - 1], ns, k);
      PutLookup(PutAll(acc, ls[..|ls| - 1]), l.0, l.1, l.2, ns, k);
    }
  }

  /** The namespace of each leaf, in order. */
  function LeafNamespaces(ls: seq<LeafEntry>): (r: seq<string>)
    ensures |r| == |ls| && forall m :: 0 <= m < |ls| ==> r[m] == ls[m].0
  {
    if ls == [] then [] else LeafNamespaces(ls[..|ls| - 1]) + [ls[|ls| - 1].0]
  }

  lemma PutNamespaces(acc: NsMap, ns: string, k: string, v: Value, ns': string)
    ensures ns' in Dicts.Keys(Put(acc, ns, k, v)) <==> ns' in Dicts.Keys(acc) || ns' == ns
  {
  }

  /** A namespace exists afterwards only if it existed or some leaf is stored
      under it: empty dictionaries create nothing. */
  lemma {:induction false} PutAllNamespaces(acc: NsMap, ls: seq<LeafEntry>, ns: string)
    ensures ns in Dicts.Keys(PutAll(acc, ls)) <==> ns in Dicts.Keys(acc) || ns in LeafNamespaces(ls)
  {
    if ls != [] {
      var init, l := ls[..|ls| - 1], ls[|ls| - 1];
      PutAllNamespaces(acc, init, ns);
      PutNamespaces(PutAll(acc, init), l.0, l.1, l.2, ns);
    }
  }

  /** Every namespace maps to a flat dictionary. */
  predicate AllFlat(m: NsMap) {
    forall e :: e in m ==> Flat(e.1)
  }

  lemma PutFlat(acc: NsMap, ns: string, k: string, v: Value)
    requires AllFlat(acc) && !v.Dict?
    ensures AllFlat(Put(acc, ns, k, v))
  {
    var inner := match Dicts.Get(acc, ns) case None => [] case Some(m) => m;
    if Dicts.Get(acc, ns).Some? {
      Dicts.GetEntry(acc, ns);
    }
    Dicts.AssignEntries(inner, k, v);
    var inner' := Dicts.Assign(inner, k, v);
    forall j | 0 <= j < |inner'|
      ensures !inner'[j].1.Dict?
    {
      assert inner'[j] in inner';
      if inner'[j] != (k, v) {
        var i :| 0 <= i < |inner| && inner[i] == inner'[j];
      }
    }
    Dicts.AssignEntries(acc, ns, inner');
  }

  lemma {:induction false} PutAllFlat(acc: NsMap, ls: seq<LeafEntry>)
    requires AllFlat(acc)
    requires forall m :: 0 <= m < |ls| ==> !ls[m].2.Dict?
    ensures AllFlat(PutAll(acc, ls))
  {
    if ls != [] {
      var l := ls[|ls| - 1];
      PutAllFlat(acc, ls[..|ls| - 1]);
      PutFlat(PutAll(acc, ls[..|ls| - 1]), l.0, l.1, l.2);
    }
  }

  /** `Features(impl)`: the feature dictionary of one example. */
  datatype Features = Features(impl: Value) {

    /** `Features.namespaces`: `_namespaces(impl)` with top-level leaves under `''`. */
    function Namespaces(): Result<NsMap> {
      NsOf(impl, "", [])
    }

    /** `Features.txt`: the segments `'{name} {flat text} '`, in namespace
        order, joined by `'|'`. */
    function Txt(): Result<string> {
      match Namespaces()
      case Err(e) => Err(e)
      case Ok(ns) =>
        NamespacesFlat(impl);
        match Collect(seq(|ns|, j requires 0 <= j < |ns| => Segment(ns[j].0, ns[j].1)))
        case Err(e) => Err(e)
        case Ok(segs) => Ok(Join("|", segs))
    }
  }

  /** One namespace of the text line. */
  function Segment(name: string, f: seq<(string, Value)>): Result<string>
    requires Flat(f)
  {
    match FlatText(f)
    case Err(e) => Err(e)
    case Ok(t) => Ok(name + " " + t + " ")
  }

  /** The namespaces of a dictionary: for every (namespace, feature) pair, the
      value of the last leaf that the traversal meets under it, where a leaf's
      namespace is the key of its enclosing dictionary (`''` at the top). */
  lemma NamespacesLookup(d: Value, ns: string, k: string)
    requires d.Dict?
    ensures Features(d).Namespaces().Ok?
    ensures Lookup(Features(d).Namespaces().value, ns, k) == LastValue(LeavesFrom(d, 0, ""), ns, k)
  {
    NsFromLeaves(d, 0, "", []);
    PutAllLookup([], LeavesFrom(d, 0, ""), ns, k);
  }

  /** A namespace is present exactly when some leaf lies directly under it. */
  lemma NamespacesPresent(d: Value, ns: string)
    requires d.Dict?
    ensures ns in Dicts.Keys(Features(d).Namespaces().value) <==> ns in LeafNamespaces(LeavesFrom(d, 0, ""))
  {
    NsFromLeaves(d, 0, "", []);
    PutAllNamespaces([], LeavesFrom(d, 0, ""), ns);
  }

  /** No namespace holds a dictionary. */
  lemma NamespacesFlat(d: Value)
    requires NsOf(d, "", []).Ok?
    ensures AllFlat(NsOf(d, "", []).value)
  {
    if d.Dict? {
      NsFromLeaves(d, 0, "", []);
      PutAllFlat([], LeavesFrom(d, 0, ""));
    }
  }

  /** Only a list at the root makes `namespaces` raise. */
  lemma NamespacesFail(d: Value)
    ensures Features(d).Namespaces().Err? <==> d.List?
    ensures d.List? ==> Features(d).Namespaces().error == NotImplementedError
  {
  }

  /** A dictionary of scalars with distinct keys is one namespace, `''`,
      holding the same items in the same order. */
  lemma {:induction false} NsFromScalars(d: Value, j: nat)
    requires d.Dict? && 0 < j <= |d.entries|
    requires Dicts.UniqueKeys(d.entries)
    requires forall m :: 0 <= m < |d.entries| ==> d.entries[m].1.Leaf?
    ensures NsFrom(d, 0, "", []) == NsFrom(d, j, "", [("", d.entries[..j])])
    decreases j
  {
    var es := d.entries;
    if j == 1 {
      NsFromStep(d, 0, "", []);
      assert es[..1] == [(es[0].0, es[0].1)];
      assert Put([], "", es[0].0, es[0].1) == [("", es[..1])];
    } else {
      NsFromScalars(d, j - 1);
      var prev := es[..j - 1];
      var k, v := es[j - 1].0, es[j - 1].1;
      LastKeyFresh(es, j);
      PutFresh(prev, k, v);
      assert prev + [(k, v)] == es[..j];
      NsFromStep(d, j - 1, "", [("", prev)]);
    }
  }

  /** With distinct keys, the key of entry `j - 1` is not among the keys before it. */
  lemma LastKeyFresh(es: seq<(string, Value)>, j: nat)
    requires Dicts.UniqueKeys(es) && 0 < j <= |es|
    ensures es[j - 1].0 !in Dicts.Keys(es[..j - 1])
  {
    var prev := es[..j - 1];
    forall m | 0 <= m < |prev|
      ensures Dicts.Keys(prev)[m] != es[j - 1].0
    {
      assert prev[m] == es[m];
    }
  }

  /** Storing a new feature in the lone namespace `''` appends it there. */
  lemma PutFresh(prev: seq<(string, Value)>, k: string, v: Value)
    requires k !in Dicts.Keys(prev)
    ensures Put([("", prev)], "", k, v) == [("", prev + [(k, v)])]
  {
    assert Dicts.Get([("", prev)], "") == Some(prev);
    Dicts.AssignFresh(prev, k, v);
    assert Dicts.Assign([("", prev)], "", prev + [(k, v)]) == [("", prev + [(k, v)])];
  }

  /** A non-empty dictionary of scalars (distinct keys) renders as the single
      namespace `''`: a leading space, its flat text, and a trailing space. */
  lemma ScalarFeaturesTxt(es: seq<(string, Value)>)
    requires es != [] && Dicts.UniqueKeys(es)
    requires forall m :: 0 <= m < |es| ==> es[m].1.Leaf?
    ensures Flat(es) && FlatText(es).Ok?
    ensures Features(Dict(es)).Txt() == Ok(" " + FlatText(es).value + " ")
  {
    assert Flat(es);
    FlatTextFails(es);
    assert !exists j :: 0 <= j < |es| && es[j].1.List?;
    var t := FlatText(es).value;
    ScalarNamespaces(es);
    TxtSingle(Dict(es), "", es);
    assert "" + " " + t + " " == " " + t + " ";
  }

  /** A dictionary of scalars with distinct keys is the one namespace `''`. */
  lemma ScalarNamespaces(es: seq<(string, Value)>)
    requires es != [] && Dicts.UniqueKeys(es)
    requires forall m :: 0 <= m < |es| ==> es[m].1.Leaf?
    ensures Features(Dict(es)).Namespaces() == Ok([("", es)])
  {
    NsFromScalars(Dict(es), |es|);
    assert es[..|es|] == es;
  }

  /** With a single namespace the line is that namespace's segment alone. */
  lemma TxtSingle(impl: Value, name: string, f: seq<(string, Value)>)
    requires Features(impl).Namespaces() == Ok([(name, f)])
    requires Flat(f) && FlatText(f).Ok?
    ensures Features(impl).Txt() == Ok(name + " " + FlatText(f).value + " ")
  {
    var ns := [(name, f)];
    var rs := seq(|ns|, j requires 0 <= j < |ns| => Segment(ns[j].0, ns[j].1));
    var seg := Segment(name, f);
    assert rs == [seg];
    CollectSingle(seg);
  }

  // ---------------------------------------------------------------------------
  // FeatureFactory._eval

  /** A feature template: a scalar, a generator `f` (called as `f(i)`), or a
      list or dict of templates. Keys are distinct, as in any Python dict. */
  datatype Template =
    | TLeaf(atom: Atom)
    | TGen(gen: int -> Value)
    | TList(items: seq<Template>)
    | TDict(entries: seq<(string, Template)>)

  /** The value a template element evaluates to at index `i`. */
  function EvalChild(t: Template, i: int): Value
    decreases t
  {
    match t
    case TLeaf(a) => Leaf(a)
    case TGen(f) => f(i)
    case TList(xs) => List(seq(|xs|, j requires 0 <= j < |xs| => EvalChild(xs[j], i)))
    case TDict(es) => Dict(seq(|es|, j requires 0 <= j < |es| => (es[j].0, EvalChild(es[j].1, i))))
  }

  /** `FeatureFactory._eval(d, i)`: a dict or list root is evaluated, any other
      root raises `ValueError`. */
  function Eval(t: Template, i: int): Result<Value> {
    if t.TDict? || t.TList? then Ok(EvalChild(t, i)) else Err(ValueError)
  }

  /** The imperative `_eval`: builds the result dict or list item by item,
      recursing into nested dicts and lists. */
  method EvalNode(t: Template, i: int) returns (r: Result<Value>)
    ensures r == Eval(t, i)
    decreases t
  {
    match t {
      case TDict(es) =>
        var result: seq<(string, Value)> := [];
        for j := 0 to |es|
          invariant |result| == j
          invariant forall m :: 0 <= m < j ==> result[m] == (es[m].0, EvalChild(es[m].1, i))
        {
          var k, v := es[j].0, es[j].1;
          if v.TDict? || v.TList? {
            var sub := EvalNode(v, i);
            result := result + [(k, sub.value)];
          } else if v.TGen? {
            result := result + [(k, v.gen(i))];
          } else {
            result := result + [(k, Leaf(v.atom))];
          }
        }
        assert Dict(result) == EvalChild(t, i);
        return Ok(Dict(result));
      case TList(xs) =>
        var result: seq<Value> := [];
        for j := 0 to |xs|
          invariant |result| == j
          invariant forall m :: 0 <= m < j ==> result[m] == EvalChild(xs[m], i)
        {
          var v := xs[j];
          if v.TDict? || v.TList? {
            var sub := EvalNode(v, i);
            result := result + [sub.value];
          } else if v.TGen? {
            result := result + [v.gen(i)];
          } else {
            result := result + [Leaf(v.atom)];
          }
        }
        assert List(result) == EvalChild(t, i);
        return Ok(List(result));
      case _ =>
        return Err(ValueError);
    }
  }

  /** `v` has the shape of `t` at index `i`: the same keys in the same order,
      the same list lengths, `f(i)` for each generator and the scalar itself
      for each scalar. */
  predicate Matches(t: Template, v: Value, i: int)
    decreases t
  {
    match t
    case TLeaf(a) => v == Leaf(a)
    case TGen(f) => v == f(i)
    case TList(xs) =>
      v.List? && |v.items| == |xs| &&
      forall j :: 0 <= j < |xs| ==> Matches(xs[j], v.items[j], i)
    case TDict(es) =>
      v.Dict? && |v.entries| == |es| &&
      forall j :: 0 <= j < |es| ==> v.entries[j].0 == es[j].0 && Matches(es[j].1, v.entries[j].1, i)
  }

  /** Evaluation preserves shape. */
  lemma {:induction false} EvalMatches(t: Template, i: int)
    ensures Matches(t, EvalChild(t, i), i)
    decreases t
  {
    match t
    case TLeaf(_) =>
    case TGen(_) =>
    case TList(xs) =>
      forall j | 0 <= j < |xs|
        ensures Matches(xs[j], EvalChild(t, i).items[j], i)
      {
        EvalMatches(xs[j], i);
      }
    case TDict(es) =>
      forall j | 0 <= j < |es|
        ensures Matches(es[j].1, EvalChild(t, i).entries[j].1, i)
      {
        EvalMatches(es[j].1, i);
      }
  }

  /** A value written as a template with no generators. */
  function Embed(v: Value): Template
    decreases v
  {
    match v
    case Leaf(a) => TLeaf(a)
    case List(xs) => TList(seq(|xs|, j requires 0 <= j < |xs| => Embed(xs[j])))
    case Dict(es) => TDict(seq(|es|, j requires 0 <= j < |es| => (es[j].0, Embed(es[j].1))))
  }

  /** A tree without generators evaluates to itself, whatever the index. */
  lemma {:induction false} EvalEmbed(v: Value, i: int)
    ensures EvalChild(Embed(v), i) == v
    ensures (v.Dict? || v.List?) <==> Eval(Embed(v), i).Ok?
    decreases v
  {
    match v
    case Leaf(_) =>
    case List(xs) =>
      var r := EvalChild(Embed(v), i);
      forall j | 0 <= j < |xs|
        ensures r.items[j] == xs[j]
      {
        EvalEmbed(xs[j], i);
      }
    case Dict(es) =>
      var r := EvalChild(Embed(v), i);
      forall j | 0 <= j < |es|
        ensures r.entries[j] == es[j]
      {
        EvalEmbed(es[j].1, i);
      }
  }

  /** `FeatureFactory(impl)`. */
  datatype FeatureFactory = FeatureFactory(impl: Template) {
    /** `FeatureFactory.get(i)`. */
    function Get(i: int): Result<Value> {
      Eval(impl, i)
    }
  }

  /** An example: its features wrapped in `Features`, and its label unchanged
      (`Example.__init__`). */
  datatype Example = Example(features: Features, value: Atom)

  /** `ExampleFactory(features, label, example_type)`; the label function
      receives the evaluated features and the index. */
  datatype ExampleFactory = ExampleFactory(fg: FeatureFactory, lg: (Value, int) -> Atom) {
    /** `ExampleFactory.get(i)`: evaluate the features, then label them. */
    function Get(i: int): Result<Example> {
      match fg.Get(i)
      case Err(e) => Err(e)
      case Ok(f) => Ok(Example(Features(f), lg(f, i)))
    }
  }

  /** The example at index `i` holds the features evaluated at `i` and the
      label computed from exactly those features; a root that is neither a
      dict nor a list raises `ValueError`. */
  lemma ExampleFactoryGet(ef: ExampleFactory, i: int)
    ensures ef.Get(i).Err? <==> !(ef.fg.impl.TDict? || ef.fg.impl.TList?)
    ensures ef.Get(i).Err? ==> ef.Get(i).error == ValueError
    ensures ef.Get(i).Ok? ==>
      Matches(ef.fg.impl, ef.Get(i).value.features.impl, i) &&
      ef.Get(i).value.value == ef.lg(ef.Get(i).value.features.impl, i)
  {
    EvalMatches(ef.fg.impl, i);
  }
}
