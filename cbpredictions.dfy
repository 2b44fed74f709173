/** `cb/dsjson/predictions.py`: the prediction table of contextual bandit
    decisions, one row per accepted log line, with the logged action,
    probability and reward of that decision. */
module CbPredictions {
  import opened Wrappers
  import opened DsJson
  import Dicts

  // ---------------------------------------------------------------------------
  // Default baselines

  /** The `random` baseline: `1 / len(obj['a'])`. */
  function RandomBaseline(obj: Json): Result<Json> {
    var a :- Field(obj, "a");
    Reciprocal(a)
  }

  /** The `baseline1` baseline: `int(obj['_labelIndex'] == 0)`. */
  function Baseline1(obj: Json): Result<Json> {
    var a :- Field(obj, "_labelIndex");
    Ok(Num(if EqualsInt(a, 0) then 1.0 else 0.0))
  }

  /** The class attribute `baselines`. */
  function DefaultBaselines(): Baselines {
    [("random", RandomBaseline), ("baseline1", Baseline1)]
  }

  /** `random` is the uniform probability over the decision's actions. */
  lemma RandomBaselineSpec(obj: Json, actions: Json)
    requires Field(obj, "a") == Ok(actions)
    ensures RandomBaseline(obj).Ok? <==> Len(actions).Ok? && Len(actions).value > 0
    ensures RandomBaseline(obj).Ok? ==>
      RandomBaseline(obj).value.Num? && RandomBaseline(obj).value.x * (Len(actions).value as real) == 1.0
  {
  }

  /** `baseline1` is 1 exactly when the logged action is the first one. */
  lemma Baseline1Spec(obj: Json, a: real)
    requires Field(obj, "_labelIndex") == Ok(Num(a))
    ensures Baseline1(obj) == Ok(Num(if a == 0.0 then 1.0 else 0.0))
  {
    assert EqualsInt(Num(a), 0) <==> a == 0.0;
  }

  // ---------------------------------------------------------------------------
  // One line

  /** The row `_decision_2_prediction` appends for a parsed decision:
      `_labelIndex`, `_label_probability`, `-_label_cost`, the timestamp, the
      importance weight and the baselines, read in that order. */
  function RowOf(bs: Baselines, parsed: Json): (r: Result<Row>)
    ensures r.Ok? ==> |r.value.b| == |bs|
  {
    var a :- Field(parsed, "_labelIndex");
    var p :- Field(parsed, "_label_probability");
    var c :- Field(parsed, "_label_cost");
    var r :- Negate(c);
    var t :- Field(parsed, "Timestamp");
    var n :- Weight(parsed.entries);
    var b :- BaselineValues(bs, parsed);
    Ok(Row(t, a, p, r, n, b))
  }

  /** The row for one log line. */
  function LineRow(parse: Parser, bs: Baselines, line: string): (r: Result<Row>)
    ensures r.Ok? ==> |r.value.b| == |bs|
  {
    var parsed :- JsonLoad(parse, line);
    RowOf(bs, parsed)
  }

  function Rows(parse: Parser, bs: Baselines): string -> Result<Row> {
    l => LineRow(parse, bs, l)
  }

  /** A row holds the logged action and probability and the negated cost
      as the reward. */
  lemma RowOfSpec(bs: Baselines, parsed: Json)
    requires RowOf(bs, parsed).Ok?
    ensures var row := RowOf(bs, parsed).value;
      Field(parsed, "_labelIndex") == Ok(row.a) &&
      Field(parsed, "_label_probability") == Ok(row.p) &&
      Field(parsed, "_label_cost").Ok? && Numeric(Field(parsed, "_label_cost").value).Some? &&
      row.r == Num(-Numeric(Field(parsed, "_label_cost").value).value)
  {
    var a := Field(parsed, "_labelIndex");
    var p := Field(parsed, "_label_probability");
    var c := Field(parsed, "_label_cost");
    assert a.Ok? && p.Ok? && c.Ok?;
    var r := Negate(c.value);
    var t := Field(parsed, "Timestamp");
    var n := Weight(parsed.entries);
    var b := BaselineValues(bs, parsed);
    assert r.Ok? && t.Ok? && n.Ok? && b.Ok?;
    assert RowOf(bs, parsed) == Ok(Row(t.value, a.value, p.value, r.value, n.value, b.value));
  }

  /** The timestamp, the importance weight `n` and one entry per baseline, in
      baseline order, complete the row. */
  lemma RowScalars(bs: Baselines, parsed: Json)
    requires RowOf(bs, parsed).Ok?
    ensures parsed.Obj?
    ensures var row := RowOf(bs, parsed).value;
      Field(parsed, "Timestamp") == Ok(row.t) &&
      Weight(parsed.entries) == Ok(row.n) &&
      forall j :: 0 <= j < |bs| ==> bs[j].1(parsed) == Ok(row.b[j])
  {
    assert Field(parsed, "_labelIndex").Ok?;
    var c := Field(parsed, "_label_cost");
    assert c.Ok? && Negate(c.value).Ok?;
    assert Field(parsed, "Timestamp").Ok? && Weight(parsed.entries).Ok?;
    assert BaselineValues(bs, parsed).Ok?;
  }

  // ---------------------------------------------------------------------------
  // Predictor

  class Predictor {
    var filters: seq<LineFilter>
    var baselines: Baselines

    /** `Predictor(filters, baselines)`: `None` keeps the class defaults,
        `[filters.is_decision]` and the two default baselines; any other
        value, even an empty one, replaces them. */
    constructor(isDecision: LineFilter, filters: Option<seq<LineFilter>>, baselines: Option<Baselines>)
      ensures this.filters == if filters.Some? then filters.value else [isDecision]
      ensures this.baselines == if baselines.Some? then baselines.value else DefaultBaselines()
    {
      this.filters := if filters.Some? then filters.value else [isDecision];
      this.baselines := if baselines.Some? then baselines.value else DefaultBaselines();
    }

    /** `_decision_2_prediction(line, result)`: parse the line and append one
        entry to every column. */
    method DecisionToPrediction(line: string, parse: Parser, result: Table) returns (r: Result<Table>)
      requires Rectangular(result, |baselines|)
      ensures r == match LineRow(parse, baselines, line)
        case Err(e) => Err(e)
        case Ok(row) => Ok(AddRow(result, row))
    {
      var parsed :- JsonLoad(parse, line);
      var a :- Field(parsed, "_labelIndex");
      var p :- Field(parsed, "_label_probability");
      var c :- Field(parsed, "_label_cost");
      var rw :- Negate(c);
      var t :- Field(parsed, "Timestamp");
      var n :- Weight(parsed.entries);
      var b :- EvalBaselines(baselines, parsed);
      r := Ok(AddRow(result, Row(t, a, p, rw, n, b)));
    }

    /** `predict(lines)`: filter the lines, then append the row of each
        remaining line, in order, to the empty table. */
    method Predict(lines: seq<string>, parse: Parser) returns (r: Result<Table>)
      ensures r == Tabulate(Rows(parse, baselines), |baselines|, ApplyFilters(filters, lines))
    {
      var ls := ApplyFilters(filters, lines);
      var rowOf := Rows(parse, baselines);
      var result := EmptyTable(|baselines|);
      for k := 0 to |ls|
        invariant Tabulate(rowOf, |baselines|, ls[..k]) == Ok(result)
      {
        TabulateStep(rowOf, |baselines|, ls, k, result);
        var step := DecisionToPrediction(ls[k], parse, result);
        if step.Err? {
          return Err(step.error);
        }
        result := step.value;
      }
      assert ls[..|ls|] == ls;
      return Ok(result);
    }
  }

  /** `predict` gives one row per line that the last filter accepts, in
      input order, every column as long as the others; it raises exactly when
      one of those lines does. */
  lemma PredictRows(parse: Parser, bs: Baselines, filters: seq<LineFilter>, lines: seq<string>)
    ensures var ls := if filters == [] then lines else Filter(filters[|filters| - 1], lines);
      var tb := Tabulate(Rows(parse, bs), |bs|, ApplyFilters(filters, lines));
      (tb.Ok? <==> forall k :: 0 <= k < |ls| ==> LineRow(parse, bs, ls[k]).Ok?) &&
      (tb.Ok? ==> Rectangular(tb.value, |bs|) && Height(tb.value) == |ls|) &&
      (tb.Ok? ==> forall k :: 0 <= k < |ls| ==> LineRow(parse, bs, ls[k]) == Ok(RowAt(tb.value, k)))
  {
    ApplyFiltersLast(filters, lines);
    TabulateRows(Rows(parse, bs), |bs|, ApplyFilters(filters, lines));
  }
}
