/** Decision logs (`dsjson`): parsed JSON values and the pieces that the
    decision-log processor (`ccb/dsjson/processor.py`) and the two prediction
    builders (`ccb/dsjson/predictions.py`, `cb/dsjson/predictions.py`) share:
    loading a line, the layered line filters, Python-style access to parsed
    values, the importance weight `n`, and the column table a prediction
    builder fills. */
module DsJson {
  import opened Wrappers
  import Dicts

  /** A parsed JSON value. Numbers are reals; objects keep their key order. */
  datatype Json =
    | Null
    | Bool(b: bool)
    | Num(x: real)
    | Str(s: string)
    | Arr(items: seq<Json>)
    | Obj(entries: Record)

  /** A JSON object (a Python dict), in key order. */
  type Record = Dicts.Dict<string, Json>

  /** `json.loads`, taken as given: the parsed value, or `None` where it raises. */
  type Parser = string -> Option<Json>

  // ---------------------------------------------------------------------------
  // json_load

  const Soh: char := '\U{1}'

  /** `line.replace('\x01', '')`. */
  function RemoveSoh(s: string): (r: string)
    ensures Soh !in r && |r| <= |s|
    ensures forall c :: c != Soh ==> (c in r <==> c in s)
  {
    if s == [] then [] else (if s[0] == Soh then [] else [s[0]]) + RemoveSoh(s[1..])
  }

  /** The replacement works character by character: it drops a lone `\x01`,
      keeps any other character, and distributes over concatenation, so the
      remaining characters keep their order and their count. */
  lemma {:induction false} RemoveSohAppend(a: string, b: string, c: char)
    ensures RemoveSoh([c]) == if c == Soh then [] else [c]
    ensures RemoveSoh(a + b) == RemoveSoh(a) + RemoveSoh(b)
    decreases |a|
  {
    assert [c][1..] == [];
    if a == [] {
      assert a + b == b;
    } else {
      assert (a + b)[1..] == a[1..] + b;
      RemoveSohAppend(a[1..], b, c);
    }
  }

  /** A line without the control character is left as it is. */
  lemma {:induction false} RemoveSohClean(s: string)
    requires Soh !in s
    ensures RemoveSoh(s) == s
  {
    if s != [] {
      assert s[0] != Soh;
      RemoveSohClean(s[1..]);
      assert [s[0]] + s[1..] == s;
    }
  }

  /** `json_load(line)` of the prediction builders: parse the line, and if
      that raises, parse it once more with every `'\x01'` removed; a second
      failure raises (`JSONDecodeError` is a `ValueError`). */
  function JsonLoad(parse: Parser, line: string): (r: Result<Json>)
    ensures r.Ok? <==> parse(line).Some? || parse(RemoveSoh(line)).Some?
    ensures parse(line).Some? ==> r == Ok(parse(line).value)
    ensures r.Err? ==> r.error == ValueError
  {
    match parse(line)
    case Some(j) => Ok(j)
    case None =>
      match parse(RemoveSoh(line))
      case Some(j) => Ok(j)
      case None => Err(ValueError)
  }

  /** The retry only differs from a single parse on lines holding `'\x01'`. */
  lemma JsonLoadClean(parse: Parser, line: string)
    requires Soh !in line
    ensures JsonLoad(parse, line) == if parse(line).Some? then Ok(parse(line).value) else Err(ValueError)
  {
    RemoveSohClean(line);
  }

  // ---------------------------------------------------------------------------
  // Line filters

  /** A line predicate such as `filters.is_decision`. */
  type LineFilter = string -> bool

  /** `filter(f, lines)`: the lines `f` accepts, in their order. */
  function Filter(f: LineFilter, lines: seq<string>): (r: seq<string>)
    ensures |r| <= |lines|
    ensures forall l :: l in r ==> f(l) && l in lines
  {
    if lines == [] then []
    else Filter(f, lines[..|lines| - 1]) + (if f(lines[|lines| - 1]) then [lines[|lines| - 1]] else [])
  }

  /** Every accepted line is kept. */
  lemma {:induction false} FilterKeeps(f: LineFilter, lines: seq<string>, l: string)
    requires l in lines && f(l)
    ensures l in Filter(f, lines)
  {
    var init := lines[..|lines| - 1];
    if l != lines[|lines| - 1] {
      assert l in init;
      FilterKeeps(f, init, l);
    }
  }

  /** Filtering works line by line, so it keeps the order of the lines. */
  lemma {:induction false} FilterAppend(f: LineFilter, a: seq<string>, b: seq<string>)
    ensures Filter(f, a + b) == Filter(f, a) + Filter(f, b)
  {
    if b == [] {
      assert a + b == a;
    } else {
      var b' := b[..|b| - 1];
      assert (a + b)[..|a + b| - 1] == a + b';
      assert (a + b)[|a + b| - 1] == b[|b| - 1];
      FilterAppend(f, a, b');
    }
  }

  /** A second pass of the same filter removes nothing more. */
  lemma {:induction false} FilterTwice(f: LineFilter, lines: seq<string>)
    ensures Filter(f, Filter(f, lines)) == Filter(f, lines)
  {
    if lines != [] {
      var init, last := lines[..|lines| - 1], lines[|lines| - 1];
      var tail := if f(last) then [last] else [];
      FilterTwice(f, init);
      FilterAppend(f, Filter(f, init), tail);
      if f(last) {
        assert Filter(f, tail) == Filter(f, []) + [last];
      } else {
        assert tail == [];
      }
    }
  }

  /** `n` layers of `filter(lambda l: g(l), ...)`. */
  function Layers(g: LineFilter, n: nat, lines: seq<string>): seq<string> {
    if n == 0 then lines else Filter(g, Layers(g, n - 1, lines))
  }

  /** `for f in filters: lines = filter(lambda l: f(l), lines)`. The lambdas
      look `f` up only when the lazy filters run, after the loop, so each of
      the `|filters|` layers applies the last filter of the list. */
  function ApplyFilters(filters: seq<LineFilter>, lines: seq<string>): seq<string> {
    if filters == [] then lines else Layers(filters[|filters| - 1], |filters|, lines)
  }

  lemma {:induction false} LayersOnce(g: LineFilter, n: nat, lines: seq<string>)
    requires n > 0
    ensures Layers(g, n, lines) == Filter(g, lines)
  {
    if n > 1 {
      LayersOnce(g, n - 1, lines);
      FilterTwice(g, lines);
    }
  }

  /** The filters keep the lines that the last filter accepts, in order; an
      empty list keeps every line. */
  lemma ApplyFiltersLast(filters: seq<LineFilter>, lines: seq<string>)
    ensures ApplyFilters(filters, lines) == if filters == [] then lines else Filter(filters[|filters| - 1], lines)
  {
    if filters != [] {
      LayersOnce(filters[|filters| - 1], |filters|, lines);
    }
  }

  // ---------------------------------------------------------------------------
  // Python operations on parsed values

  /** `o[k]` for a string key. */
  function Field(o: Json, k: string): (r: Result<Json>)
    ensures r.Ok? <==> o.Obj? && k in Dicts.Keys(o.entries)
    ensures r.Ok? ==> Dicts.Get(o.entries, k) == Some(r.value)
    ensures r.Err? ==> r.error == if o.Obj? then KeyError(k) else TypeError
  {
    match o
    case Obj(es) => (match Dicts.Get(es, k) case Some(v) => Ok(v) case None => Err(KeyError(k)))
    case _ => Err(TypeError)
  }

  /** `o.get(k, default)`: only a dict has `get`. */
  function FieldOr(o: Json, k: string, default: Json): (r: Result<Json>)
    ensures r.Ok? <==> o.Obj?
    ensures o.Obj? && k !in Dicts.Keys(o.entries) ==> r == Ok(default)
    ensures o.Obj? && k in Dicts.Keys(o.entries) ==> r == Field(o, k)
  {
    match o
    case Obj(es) => (match Dicts.Get(es, k) case Some(v) => Ok(v) case None => Ok(default))
    case _ => Err(AttributeError("get"))
  }

  /** `o[0]`: the first item of a list or string; a dict looks the key `0` up
      (JSON keys are strings, so it is never there). */
  function First(o: Json): (r: Result<Json>)
    ensures o.Arr? && o.items != [] ==> r == Ok(o.items[0])
    ensures o.Str? && o.s != [] ==> r == Ok(Str([o.s[0]]))
    ensures r.Ok? <==> (o.Arr? && o.items != []) || (o.Str? && o.s != [])
  {
    match o
    case Arr(xs) => if xs == [] then Err(IndexError) else Ok(xs[0])
    case Str(s) => if s == [] then Err(IndexError) else Ok(Str([s[0]]))
    case Obj(_) => Err(KeyError("0"))
    case _ => Err(TypeError)
  }

  /** What `for x in o` (and `enumerate(o)`) visits: a list's items, a dict's
      keys, a string's characters. */
  function Elements(o: Json): (r: Result<seq<Json>>)
    ensures r.Ok? <==> o.Arr? || o.Obj? || o.Str?
    ensures o.Arr? ==> r == Ok(o.items)
  {
    match o
    case Arr(xs) => Ok(xs)
    case Obj(es) => Ok(seq(|es|, i requires 0 <= i < |es| => Str(es[i].0)))
    case Str(s) => Ok(seq(|s|, i requires 0 <= i < |s| => Str([s[i]])))
    case _ => Err(TypeError)
  }

  /** `len(o)`. */
  function Len(o: Json): (r: Result<nat>)
    ensures r.Ok? <==> Elements(o).Ok?
    ensures r.Ok? ==> r.value == |Elements(o).value|
  {
    match o
    case Arr(xs) => Ok(|xs|)
    case Obj(es) => Ok(|es|)
    case Str(s) => Ok(|s|)
    case _ => Err(TypeError)
  }

  /** A number as Python sees it: `True` and `False` are `1` and `0`. */
  function Numeric(o: Json): Option<real> {
    match o
    case Num(x) => Some(x)
    case Bool(b) => Some(if b then 1.0 else 0.0)
    case _ => None
  }

  /** `-o`. */
  function Negate(o: Json): (r: Result<Json>)
    ensures r.Ok? <==> Numeric(o).Some?
    ensures r.Ok? ==> r.value == Num(-Numeric(o).value)
  {
    match Numeric(o)
    case Some(x) => Ok(Num(-x))
    case None => Err(TypeError)
  }

  /** `o == i` for an integer `i`. */
  function EqualsInt(o: Json, i: int): bool {
    Numeric(o) == Some(i as real)
  }

  /** `1 / len(o)`. */
  function Reciprocal(o: Json): (r: Result<Json>)
    ensures r.Ok? <==> Len(o).Ok? && Len(o).value > 0
    ensures r.Ok? ==> r.value.Num? && r.value.x * (Len(o).value as real) == 1.0
  {
    match Len(o)
    case Err(e) => Err(e)
    case Ok(k) => if k == 0 then Err(ZeroDivisionError) else Ok(Num(1.0 / k as real))
  }

  /** `o * k` for `k` in `{0, 1}`: numbers scale, sequences are repeated. */
  function Times(o: Json, k: int): (r: Result<Json>)
    requires k == 0 || k == 1
    ensures Numeric(o).Some? ==> r == Ok(Num(Numeric(o).value * (k as real)))
    ensures k == 1 && (o.Str? || o.Arr?) ==> r == Ok(o)
  {
    match o
    case Str(s) => Ok(Str(if k == 1 then s else []))
    case Arr(xs) => Ok(Arr(if k == 1 then xs else []))
    case Num(x) => Ok(Num(x * (k as real)))
    case Bool(b) => Ok(Num((if b then 1.0 else 0.0) * (k as real)))
    case _ => Err(TypeError)
  }

  // ---------------------------------------------------------------------------
  // The importance weight

  /** `1 if 'pdrop' not in parsed else 1 / (1 - parsed['pdrop'])`. */
  function Weight(parsed: Record): (r: Result<Json>)
    ensures "pdrop" !in Dicts.Keys(parsed) ==> r == Ok(Num(1.0))
  {
    match Dicts.Get(parsed, "pdrop")
    case None => Ok(Num(1.0))
    case Some(v) =>
      match Numeric(v)
      case None => Err(TypeError)
      case Some(x) => if x == 1.0 then Err(ZeroDivisionError) else Ok(Num(1.0 / (1.0 - x)))
  }

  /** With a drop probability `pdrop`, `n` is its complement's inverse, at
      least 1 when `0 <= pdrop < 1`; `pdrop == 1` divides by zero. */
  lemma WeightInverse(parsed: Record, x: real)
    requires Dicts.Get(parsed, "pdrop") == Some(Num(x))
    ensures Weight(parsed).Ok? <==> x != 1.0
    ensures x == 1.0 ==> Weight(parsed) == Err(ZeroDivisionError)
    ensures x != 1.0 ==> Weight(parsed).value.Num? && Weight(parsed).value.x * (1.0 - x) == 1.0
    ensures 0.0 <= x < 1.0 ==> Weight(parsed).value.x >= 1.0
  {
    if 0.0 <= x < 1.0 {
      var w, d := 1.0 / (1.0 - x), 1.0 - x;
      assert w * d == 1.0;
      if w < 1.0 {
        ScaleBelow(w, 1.0, d);
      }
    }
  }

  lemma ScaleBelow(a: real, b: real, d: real)
    requires a < b && d > 0.0
    ensures a * d < b * d
  {
  }

  // ---------------------------------------------------------------------------
  // Prediction tables

  /** One accepted line's entries: timestamp, action, probability, reward,
      weight, and one value per baseline in baseline order. */
  datatype Row = Row(t: Json, a: Json, p: Json, r: Json, n: Json, b: seq<Json>)

  /** The `result` dict of `predict`: the columns `t`, `a`, `p`, `r`, `n`, and
      the column `('b', name)` of each baseline, in baseline order. */
  datatype Table = Table(t: seq<Json>, a: seq<Json>, p: seq<Json>, r: seq<Json>, n: seq<Json>, b: seq<seq<Json>>)

  function Height(tb: Table): nat {
    |tb.t|
  }

  /** Every column has the same length and there is one baseline column per
      baseline, as `pd.DataFrame(result)` needs. */
  predicate Rectangular(tb: Table, baselines: nat) {
    |tb.a| == |tb.t| && |tb.p| == |tb.t| && |tb.r| == |tb.t| && |tb.n| == |tb.t| &&
    |tb.b| == baselines && forall j :: 0 <= j < |tb.b| ==> |tb.b[j]| == |tb.t|
  }

  /** `result = {'t': [], ...}` followed by `result[('b', name)] = []` for each
      baseline. */
  function EmptyTable(baselines: nat): (tb: Table)
    ensures Rectangular(tb, baselines) && Height(tb) == 0
  {
    Table([], [], [], [], [], seq(baselines, j => []))
  }

  /** The entries of row `k`. */
  function RowAt(tb: Table, k: nat): Row
    requires Rectangular(tb, |tb.b|) && k < Height(tb)
  {
    Row(tb.t[k], tb.a[k], tb.p[k], tb.r[k], tb.n[k], seq(|tb.b|, j requires 0 <= j < |tb.b| => tb.b[j][k]))
  }

  /** One `append` to each column. */
  function AddRow(tb: Table, row: Row): Table
    requires |row.b| == |tb.b|
  {
    Table(tb.t + [row.t], tb.a + [row.a], tb.p + [row.p], tb.r + [row.r], tb.n + [row.n],
          seq(|tb.b|, j requires 0 <= j < |tb.b| => tb.b[j] + [row.b[j]]))
  }

  /** Appending a row keeps the columns equally long, grows them by one, puts
      the row last and leaves the earlier rows as they were. */
  lemma AddRowShape(tb: Table, row: Row, baselines: nat)
    requires Rectangular(tb, baselines) && |row.b| == baselines
    ensures Rectangular(AddRow(tb, row), baselines)
    ensures Height(AddRow(tb, row)) == Height(tb) + 1
    ensures RowAt(AddRow(tb, row), Height(tb)) == row
    ensures forall k :: 0 <= k < Height(tb) ==> RowAt(AddRow(tb, row), k) == RowAt(tb, k)
  {
    var tb' := AddRow(tb, row);
    var h := Height(tb);
    assert RowAt(tb', h).b == row.b;
    forall k | 0 <= k < h
      ensures RowAt(tb', k) == RowAt(tb, k)
    {
      assert RowAt(tb', k).b == RowAt(tb, k).b;
    }
  }

  // ---------------------------------------------------------------------------
  // Baselines and predict

  /** A baseline: a function of the parsed decision, named in a dict. */
  type Baseline = Json -> Result<Json>

  type Baselines = Dicts.Dict<string, Baseline>

  /** Every baseline applied to the parsed decision, in baseline order; the
      first one that raises ends the line. */
  function BaselineValues(bs: Baselines, parsed: Json): (r: Result<seq<Json>>)
    ensures r.Ok? <==> forall j :: 0 <= j < |bs| ==> bs[j].1(parsed).Ok?
    ensures r.Ok? ==> |r.value| == |bs| && forall j :: 0 <= j < |bs| ==> bs[j].1(parsed) == Ok(r.value[j])
  {
    var rs := seq(|bs|, j requires 0 <= j < |bs| => bs[j].1(parsed));
    assert forall j :: 0 <= j < |bs| ==> rs[j] == bs[j].1(parsed);
    Collect(rs)
  }

  /** `for baseline_name, baseline_func in self.baselines.items():
      result[('b', baseline_name)].append(baseline_func(parsed))`, collecting
      the values that one line appends. */
  method EvalBaselines(bs: Baselines, parsed: Json) returns (r: Result<seq<Json>>)
    ensures r == BaselineValues(bs, parsed)
  {
    ghost var rs := seq(|bs|, j requires 0 <= j < |bs| => bs[j].1(parsed));
    var values := [];
    for j := 0 to |bs|
      invariant Collect(rs[..j]) == Ok(values)
    {
      var v := bs[j].1(parsed);
      CollectStep(rs, j, values);
      if v.Err? {
        return Err(v.error);
      }
      values := values + [v.value];
    }
    assert rs[..|bs|] == rs;
    return Ok(values);
  }

  /** The rows of the accepted lines appended in order to the empty table;
      the first line that raises ends `predict`. */
  function Tabulate(rowOf: string -> Result<Row>, nb: nat, lines: seq<string>): (r: Result<Table>)
    requires forall l :: rowOf(l).Ok? ==> |rowOf(l).value.b| == nb
    ensures r.Ok? ==> Rectangular(r.value, nb) && Height(r.value) == |lines|
  {
    if lines == [] then Ok(EmptyTable(nb))
    else
      match Tabulate(rowOf, nb, lines[..|lines| - 1])
      case Err(e) => Err(e)
      case Ok(tb) =>
        match rowOf(lines[|lines| - 1])
        case Err(e) => Err(e)
        case Ok(row) => AddRowShape(tb, row, nb); Ok(AddRow(tb, row))
  }

  /** The table has one row per line, in line order, each the row that line
      gives; it raises exactly when some line does. */
  lemma {:induction false} TabulateRows(rowOf: string -> Result<Row>, nb: nat, lines: seq<string>)
    requires forall l :: rowOf(l).Ok? ==> |rowOf(l).value.b| == nb
    ensures Tabulate(rowOf, nb, lines).Ok? <==> forall k :: 0 <= k < |lines| ==> rowOf(lines[k]).Ok?
    ensures Tabulate(rowOf, nb, lines).Ok? ==>
      forall k :: 0 <= k < |lines| ==> rowOf(lines[k]) == Ok(RowAt(Tabulate(rowOf, nb, lines).value, k))
  {
    if lines != [] {
      var init := lines[..|lines| - 1];
      TabulateRows(rowOf, nb, init);
      assert forall k :: 0 <= k < |init| ==> init[k] == lines[k];
      if Tabulate(rowOf, nb, lines).Ok? {
        var tb := Tabulate(rowOf, nb, init).value;
        AddRowShape(tb, rowOf(lines[|lines| - 1]).value, nb);
      }
    }
  }

  /** One step of `predict`'s loop: with the first `k` lines tabulated,
      line `k` either ends `predict` with its error or appends its row. */
  lemma TabulateStep(rowOf: string -> Result<Row>, nb: nat, lines: seq<string>, k: nat, tb: Table)
    requires forall l :: rowOf(l).Ok? ==> |rowOf(l).value.b| == nb
    requires k < |lines| && Tabulate(rowOf, nb, lines[..k]) == Ok(tb)
    ensures rowOf(lines[k]).Err? ==> Tabulate(rowOf, nb, lines) == Err(rowOf(lines[k]).error)
    ensures rowOf(lines[k]).Ok? ==> Tabulate(rowOf, nb, lines[..k + 1]) == Ok(AddRow(tb, rowOf(lines[k]).value))
  {
    assert lines[..k + 1][..k] == lines[..k] && lines[..k + 1][k] == lines[k];
    if rowOf(lines[k]).Err? {
      TabulateErrPrefix(rowOf, nb, lines, k + 1);
    }
  }

  /** Once a prefix of the lines raises, `predict` raises the same. */
  lemma {:induction false} TabulateErrPrefix(rowOf: string -> Result<Row>, nb: nat, lines: seq<string>, k: nat)
    requires forall l :: rowOf(l).Ok? ==> |rowOf(l).value.b| == nb
    requires k <= |lines| && Tabulate(rowOf, nb, lines[..k]).Err?
    ensures Tabulate(rowOf, nb, lines) == Tabulate(rowOf, nb, lines[..k])
    decreases |lines| - k
  {
    if k == |lines| {
      assert lines[..k] == lines;
    } else {
      assert lines[..k + 1][..k] == lines[..k];
      TabulateErrPrefix(rowOf, nb, lines, k + 1);
    }
  }
}
