/** `ccb/dsjson/predictions.py`: the prediction table of conditional
    contextual bandit decisions, one row per accepted log line, where the
    action, probability and reward entries are lists with one item per
    outcome (slot). */
module CcbPredictions {
  import opened Wrappers
  import opened DsJson
  import Dicts

  // ---------------------------------------------------------------------------
  // Default baselines

  /** `1 / len(o['_a'])` for one outcome. */
  function RandomEntry(o: Json): Result<Json> {
    var a :- Field(o, "_a");
    Reciprocal(a)
  }

  /** The `random` baseline: `[1 / len(o['_a']) for o in obj['_outcomes']]`. */
  function RandomBaseline(obj: Json): Result<Json> {
    var outs :- Field(obj, "_outcomes");
    var os :- Elements(outs);
    var vs :- Collect(RandomCalls(os));
    Ok(Arr(vs))
  }

  function RandomCalls(os: seq<Json>): (rs: seq<Result<Json>>)
    ensures |rs| == |os| && forall i :: 0 <= i < |os| ==> rs[i] == RandomEntry(os[i])
  {
    seq(|os|, i requires 0 <= i < |os| => RandomEntry(os[i]))
  }

  /** `o['_p'][0] * int(o['_a'][0] == i)` for outcome `i`. */
  function Baseline1OldEntry(i: int, o: Json): Result<Json> {
    var ps :- Field(o, "_p");
    var p0 :- First(ps);
    var as_ :- Field(o, "_a");
    var a0 :- First(as_);
    Times(p0, if EqualsInt(a0, i) then 1 else 0)
  }

  /** The `baseline1_old` baseline:
      `[o['_p'][0] * int(o['_a'][0] == i) for i, o in enumerate(obj['_outcomes'])]`. */
  function Baseline1OldBaseline(obj: Json): Result<Json> {
    var outs :- Field(obj, "_outcomes");
    var os :- Elements(outs);
    var vs :- Collect(Baseline1OldCalls(os));
    Ok(Arr(vs))
  }

  function Baseline1OldCalls(os: seq<Json>): (rs: seq<Result<Json>>)
    ensures |rs| == |os| && forall i :: 0 <= i < |os| ==> rs[i] == Baseline1OldEntry(i, os[i])
  {
    seq(|os|, i requires 0 <= i < |os| => Baseline1OldEntry(i, os[i]))
  }

  /** The class attribute `baselines`. */
  function DefaultBaselines(): Baselines {
    [("random", RandomBaseline), ("baseline1_old", Baseline1OldBaseline)]
  }

  /** `e` is the uniform probability over the items of `a`: `e * len(a) == 1`. */
  predicate UniformOver(e: Json, a: Json) {
    Len(a).Ok? && e.Num? && e.x * (Len(a).value as real) == 1.0
  }

  /** The `random` baseline gives each outcome the uniform probability over
      its actions: an entry `x` with `x * len(_a) == 1`. */
  lemma RandomBaselineSpec(obj: Json, os: seq<Json>)
    requires Field(obj, "_outcomes") == Ok(Arr(os))
    requires RandomBaseline(obj).Ok?
    ensures RandomBaseline(obj).value.Arr? && |RandomBaseline(obj).value.items| == |os|
    ensures forall i :: 0 <= i < |os| ==>
      Field(os[i], "_a").Ok? && UniformOver(RandomBaseline(obj).value.items[i], Field(os[i], "_a").value)
  {
    assert Elements(Arr(os)) == Ok(os);
    var rs := RandomCalls(os);
    assert Collect(rs).Ok? && RandomBaseline(obj) == Ok(Arr(Collect(rs).value));
    var vs := Collect(rs).value;
    forall i | 0 <= i < |os|
      ensures Field(os[i], "_a").Ok? && UniformOver(RandomBaseline(obj).value.items[i], Field(os[i], "_a").value)
    {
      assert rs[i] == RandomEntry(os[i]) && rs[i].Ok? && vs[i] == rs[i].value;
      RandomEntrySpec(os[i]);
    }
  }

  lemma RandomEntrySpec(o: Json)
    requires RandomEntry(o).Ok?
    ensures Field(o, "_a").Ok? && UniformOver(RandomEntry(o).value, Field(o, "_a").value)
  {
  }

  /** `baseline1_old` credits outcome `i` with the logged probability exactly
      when the logged first action of that outcome is `i`, and 0 otherwise. */
  lemma Baseline1OldSpec(obj: Json, os: seq<Json>, i: nat, a: real, p: real)
    requires Field(obj, "_outcomes") == Ok(Arr(os))
    requires Baseline1OldBaseline(obj).Ok? && i < |os|
    requires Field(os[i], "_a").Ok? && First(Field(os[i], "_a").value) == Ok(Num(a))
    requires Field(os[i], "_p").Ok? && First(Field(os[i], "_p").value) == Ok(Num(p))
    ensures Baseline1OldBaseline(obj).value.Arr? && |Baseline1OldBaseline(obj).value.items| == |os|
    ensures Baseline1OldBaseline(obj).value.items[i] == Num(if a == i as real then p else 0.0)
  {
    assert Elements(Arr(os)) == Ok(os);
    var rs := Baseline1OldCalls(os);
    assert Collect(rs).Ok? && Baseline1OldBaseline(obj) == Ok(Arr(Collect(rs).value));
    assert rs[i] == Baseline1OldEntry(i, os[i]);
    Baseline1OldEntrySpec(i, os[i], a, p);
  }

  lemma Baseline1OldEntrySpec(i: int, o: Json, a: real, p: real)
    requires Field(o, "_a").Ok? && First(Field(o, "_a").value) == Ok(Num(a))
    requires Field(o, "_p").Ok? && First(Field(o, "_p").value) == Ok(Num(p))
    ensures Baseline1OldEntry(i, o) == Ok(Num(if a == i as real then p else 0.0))
  {
    assert EqualsInt(Num(a), i) <==> a == i as real;
    if a == i as real {
      assert Times(Num(p), 1) == Ok(Num(p * 1.0));
      assert Baseline1OldEntry(i, o) == Times(Num(p), 1);
    } else {
      assert Times(Num(p), 0) == Ok(Num(p * 0.0));
      assert Baseline1OldEntry(i, o) == Times(Num(p), 0);
    }
  }

  // ---------------------------------------------------------------------------
  // One line

  /** One outcome's entries of `a`, `p` and `r`:
      `o['_a'][0]`, `o['_p'][0]` and `-o['_label_cost']`. */
  function OutcomeEntries(o: Json): Result<(Json, Json, Json)> {
    var as_ :- Field(o, "_a");
    var a0 :- First(as_);
    var ps :- Field(o, "_p");
    var p0 :- First(ps);
    var c :- Field(o, "_label_cost");
    var r :- Negate(c);
    Ok((a0, p0, r))
  }

  /** The lists `a`, `p`, `r` built over the outcomes: entry `i` of each
      comes from outcome `i`, and they are built exactly when every outcome
      has its fields (the first one that lacks one raises). */
  function OutcomeColumns(os: seq<Json>): (r: Result<(seq<Json>, seq<Json>, seq<Json>)>)
    ensures r.Ok? <==> forall i :: 0 <= i < |os| ==> OutcomeEntries(os[i]).Ok?
    ensures r.Ok? ==> |r.value.0| == |os| && |r.value.1| == |os| && |r.value.2| == |os|
    ensures r.Ok? ==> forall i :: 0 <= i < |os| ==>
      var e := OutcomeEntries(os[i]).value;
      r.value.0[i] == e.0 && r.value.1[i] == e.1 && r.value.2[i] == e.2
    ensures r.Err? ==> exists i :: 0 <= i < |os| && OutcomeEntries(os[i]) == Err(r.error)
  {
    var rs := OutcomeCalls(os);
    var es :- Collect(rs);
    Ok((seq(|es|, i requires 0 <= i < |es| => es[i].0),
        seq(|es|, i requires 0 <= i < |es| => es[i].1),
        seq(|es|, i requires 0 <= i < |es| => es[i].2)))
  }

  /** `OutcomeEntries` of each outcome, in order. */
  function OutcomeCalls(os: seq<Json>): (rs: seq<Result<(Json, Json, Json)>>)
    ensures |rs| == |os| && forall i :: 0 <= i < |os| ==> rs[i] == OutcomeEntries(os[i])
  {
    seq(|os|, i requires 0 <= i < |os| => OutcomeEntries(os[i]))
  }

  lemma OutcomeColumnsOf(os: seq<Json>, es: seq<(Json, Json, Json)>, a: seq<Json>, p: seq<Json>, r: seq<Json>)
    requires Collect(OutcomeCalls(os)) == Ok(es)
    requires |a| == |es| && |p| == |es| && |r| == |es|
    requires forall j :: 0 <= j < |es| ==> a[j] == es[j].0 && p[j] == es[j].1 && r[j] == es[j].2
    ensures OutcomeColumns(os) == Ok((a, p, r))
  {
    assert a == seq(|es|, i requires 0 <= i < |es| => es[i].0);
    assert p == seq(|es|, i requires 0 <= i < |es| => es[i].1);
    assert r == seq(|es|, i requires 0 <= i < |es| => es[i].2);
  }

  /** The loop of `_decision_2_prediction` that appends, outcome by outcome,
      to `a`, `p` and `r`; the first outcome that lacks a field raises. */
  method BuildOutcomeColumns(os: seq<Json>) returns (r: Result<(seq<Json>, seq<Json>, seq<Json>)>)
    ensures r == OutcomeColumns(os)
  {
    ghost var calls := OutcomeCalls(os);
    ghost var es: seq<(Json, Json, Json)> := [];
    var a, p, rs := [], [], [];
    for i := 0 to |os|
      invariant Collect(calls[..i]) == Ok(es)
      invariant |a| == i && |p| == i && |rs| == i && |es| == i
      invariant forall j :: 0 <= j < i ==> a[j] == es[j].0 && p[j] == es[j].1 && rs[j] == es[j].2
    {
      var e := OutcomeEntries(os[i]);
      CollectStep(calls, i, es);
      if e.Err? {
        return Err(e.error);
      }
      a, p, rs := a + [e.value.0], p + [e.value.1], rs + [e.value.2];
      es := es + [e.value];
    }
    assert calls[..|os|] == calls;
    OutcomeColumnsOf(os, es, a, p, rs);
    return Ok((a, p, rs));
  }

  /** The row `_decision_2_prediction` appends for a parsed decision. */
  function RowOf(bs: Baselines, parsed: Json): (r: Result<Row>)
    ensures r.Ok? ==> |r.value.b| == |bs|
  {
    var outs :- Field(parsed, "_outcomes");
    var os :- Elements(outs);
    var cols :- OutcomeColumns(os);
    var t :- Field(parsed, "Timestamp");
    var n :- Weight(parsed.entries);
    var b :- BaselineValues(bs, parsed);
    Ok(Row(t, Arr(cols.0), Arr(cols.1), Arr(cols.2), n, b))
  }

  /** The row for one log line. */
  function LineRow(parse: Parser, bs: Baselines, line: string): (r: Result<Row>)
    ensures r.Ok? ==> |r.value.b| == |bs|
  {
    var parsed :- JsonLoad(parse, line);
    RowOf(bs, parsed)
  }

  function Rows(parse: Parser, bs: Baselines): string -> Result<Row> {
    l => LineRow(parse, bs, l)
  }

  /** A successful row, taken apart into the values it was built from. */
  lemma RowOfValue(bs: Baselines, parsed: Json)
    requires RowOf(bs, parsed).Ok?
    ensures Field(parsed, "_outcomes").Ok? && Elements(Field(parsed, "_outcomes").value).Ok?
    ensures var os := Elements(Field(parsed, "_outcomes").value).value;
      OutcomeColumns(os).Ok? && Field(parsed, "Timestamp").Ok? && Weight(parsed.entries).Ok? &&
      BaselineValues(bs, parsed).Ok? &&
      var cols := OutcomeColumns(os).value;
      RowOf(bs, parsed).value == Row(Field(parsed, "Timestamp").value, Arr(cols.0), Arr(cols.1), Arr(cols.2),
        Weight(parsed.entries).value, BaselineValues(bs, parsed).value)
  {
  }

  /** A row holds, for each outcome in order, its first action, its first
      probability and its negated cost. */
  lemma RowOutcomes(bs: Baselines, parsed: Json, os: seq<Json>)
    requires Field(parsed, "_outcomes") == Ok(Arr(os))
    requires RowOf(bs, parsed).Ok?
    ensures var row := RowOf(bs, parsed).value;
      row.a.Arr? && row.p.Arr? && row.r.Arr? &&
      |row.a.items| == |os| && |row.p.items| == |os| && |row.r.items| == |os| &&
      forall i :: 0 <= i < |os| ==>
        First(Field(os[i], "_a").value) == Ok(row.a.items[i]) &&
        First(Field(os[i], "_p").value) == Ok(row.p.items[i]) &&
        Negate(Field(os[i], "_label_cost").value) == Ok(row.r.items[i])
  {
    RowOfValue(bs, parsed);
    assert Elements(Arr(os)) == Ok(os);
    var cols := OutcomeColumns(os).value;
    forall i | 0 <= i < |os|
      ensures First(Field(os[i], "_a").value) == Ok(cols.0[i])
      ensures First(Field(os[i], "_p").value) == Ok(cols.1[i])
      ensures Negate(Field(os[i], "_label_cost").value) == Ok(cols.2[i])
    {
      OutcomeEntriesSpec(os[i]);
    }
  }

  lemma OutcomeEntriesSpec(o: Json)
    requires OutcomeEntries(o).Ok?
    ensures Field(o, "_a").Ok? && First(Field(o, "_a").value) == Ok(OutcomeEntries(o).value.0)
    ensures Field(o, "_p").Ok? && First(Field(o, "_p").value) == Ok(OutcomeEntries(o).value.1)
    ensures Field(o, "_label_cost").Ok? && Negate(Field(o, "_label_cost").value) == Ok(OutcomeEntries(o).value.2)
  {
  }

  /** The timestamp, the importance weight `n` and one entry per baseline, in
      baseline order, complete the row. */
  lemma RowScalars(bs: Baselines, parsed: Json)
    requires RowOf(bs, parsed).Ok?
    ensures parsed.Obj?
    ensures var row := RowOf(bs, parsed).value;
      Field(parsed, "Timestamp") == Ok(row.t) &&
      Weight(parsed.entries) == Ok(row.n) &&
      forall j :: 0 <= j < |bs| ==> bs[j].1(parsed) == Ok(row.b[j])
  {
    RowOfValue(bs, parsed);
  }

  // ---------------------------------------------------------------------------
  // Predictor

  class Predictor {
    var filters: seq<LineFilter>
    var baselines: Baselines

    /** `Predictor(filters, baselines)`: `None` keeps the class defaults,
        `[filters.is_decision]` and the two default baselines; any other
        value, even an empty one, replaces them. */
    constructor(isDecision: LineFilter, filters: Option<seq<LineFilter>>, baselines: Option<Baselines>)
      ensures this.filters == if filters.Some? then filters.value else [isDecision]
      ensures this.baselines == if baselines.Some? then baselines.value else DefaultBaselines()
    {
      this.filters := if filters.Some? then filters.value else [isDecision];
      this.baselines := if baselines.Some? then baselines.value else DefaultBaselines();
    }

    /** `_decision_2_prediction(line, result)`: parse the line, build `a`,
        `p` and `r` over the outcomes, then append one entry to every column. */
    method DecisionToPrediction(line: string, parse: Parser, result: Table) returns (r: Result<Table>)
      requires Rectangular(result, |baselines|)
      ensures r == match LineRow(parse, baselines, line)
        case Err(e) => Err(e)
        case Ok(row) => Ok(AddRow(result, row))
    {
      var parsed :- JsonLoad(parse, line);
      var outs :- Field(parsed, "_outcomes");
      var os :- Elements(outs);
      var cols :- BuildOutcomeColumns(os);
      var t :- Field(parsed, "Timestamp");
      var n :- Weight(parsed.entries);
      var b :- EvalBaselines(baselines, parsed);
      r := Ok(AddRow(result, Row(t, Arr(cols.0), Arr(cols.1), Arr(cols.2), n, b)));
    }

    /** `predict(lines)`: filter the lines, then append the row of each
        remaining line, in order, to the empty table. */
    method Predict(lines: seq<string>, parse: Parser) returns (r: Result<Table>)
      ensures r == Tabulate(Rows(parse, baselines), |baselines|, ApplyFilters(filters, lines))
    {
      var ls := ApplyFilters(filters, lines);
      var rowOf := Rows(parse, baselines);
      var result := EmptyTable(|baselines|);
      for k := 0 to |ls|
        invariant Tabulate(rowOf, |baselines|, ls[..k]) == Ok(result)
      {
        TabulateStep(rowOf, |baselines|, ls, k, result);
        var step := DecisionToPrediction(ls[k], parse, result);
        if step.Err? {
          return Err(step.error);
        }
        result := step.value;
      }
      assert ls[..|ls|] == ls;
      return Ok(result);
    }
  }

  /** `predict` gives one row per line that the last filter accepts, in
      input order, every column as long as the others; it raises exactly when
      one of those lines does. */
  lemma PredictRows(parse: Parser, bs: Baselines, filters: seq<LineFilter>, lines: seq<string>)
    ensures var ls := if filters == [] then lines else Filter(filters[|filters| - 1], lines);
      var tb := Tabulate(Rows(parse, bs), |bs|, ApplyFilters(filters, lines));
      (tb.Ok? <==> forall k :: 0 <= k < |ls| ==> LineRow(parse, bs, ls[k]).Ok?) &&
      (tb.Ok? ==> Rectangular(tb.value, |bs|) && Height(tb.value) == |ls|) &&
      (tb.Ok? ==> forall k :: 0 <= k < |ls| ==> LineRow(parse, bs, ls[k]) == Ok(RowAt(tb.value, k)))
  {
    ApplyFiltersLast(filters, lines);
    TabulateRows(Rows(parse, bs), |bs|, ApplyFilters(filters, lines));
  }
}
