/** `ccb/dsjson/processor.py`: restructuring conditional contextual bandit
    decision lines. Each group of processors (`'/'` for the decision, `'c'`
    for the shared context, `'_multi'` per action, `'_slots'` per slot,
    `'_outcomes'` per outcome) maps the parsed line to dicts, which are merged
    with `ChainMap` precedence: the first processor's value for a key wins. */
module CcbProcessor {
  import opened Wrappers
  import opened DsJson
  import Dicts

  /** A processor: the `'/'` and `'c'` groups call it as `p(x)`, the other
      groups as `p(i, o, parsed)`; a call with the other arity raises. */
  datatype Proc = Unary(f: Json -> Result<Record>) | Ternary(g: (int, Json, Json) -> Result<Record>)

  /** The `processors` dict: group name to its list of processors. */
  type ProcMap = Dicts.Dict<string, seq<Proc>>

  function Call1(pr: Proc, x: Json): Result<Record> {
    match pr
    case Unary(f) => f(x)
    case Ternary(_) => Err(TypeError)
  }

  function Call3(pr: Proc, i: int, o: Json, parsed: Json): Result<Record> {
    match pr
    case Ternary(g) => g(i, o, parsed)
    case Unary(_) => Err(TypeError)
  }

  /** `self.processors[key]`. */
  function Group(pm: ProcMap, key: string): (r: Result<seq<Proc>>)
    ensures r.Ok? <==> key in Dicts.Keys(pm)
    ensures r.Ok? ==> Dicts.Get(pm, key) == Some(r.value)
    ensures r.Err? ==> r.error == KeyError(key)
  {
    match Dicts.Get(pm, key)
    case Some(g) => Ok(g)
    case None => Err(KeyError(key))
  }

  // ---------------------------------------------------------------------------
  // Default processors

  /** `default_top_processor`: the timestamp, and `_skipLearn` and `pdrop`
      with the defaults `False` and `0.0`. */
  function DefaultTop(o: Json): Result<Record> {
    var ts :- Field(o, "Timestamp");
    var skip :- FieldOr(o, "_skipLearn", Bool(false));
    var pdrop :- FieldOr(o, "pdrop", Num(0.0));
    Ok([("Timestamp", ts), ("_skipLearn", skip), ("pdrop", pdrop)])
  }

  /** `default_slot_processor`: the slot's `_inc` list, empty by default. */
  function DefaultSlot(i: int, s: Json, e: Json): Result<Record> {
    var inc :- FieldOr(s, "_inc", Arr([]));
    Ok([("_inc", inc)])
  }

  /** `default_outcome_processor`: the outcome's cost, id, actions and
      probabilities. */
  function DefaultOutcome(i: int, s: Json, e: Json): Result<Record> {
    var c :- Field(s, "_label_cost");
    var id :- Field(s, "_id");
    var a :- Field(s, "_a");
    var p :- Field(s, "_p");
    Ok([("_label_cost", c), ("_id", id), ("_a", a), ("_p", p)])
  }

  /** The class attribute `processors`. */
  function DefaultProcessors(): ProcMap {
    [("/", [Unary(DefaultTop)]), ("c", []), ("_multi", []),
     ("_slots", [Ternary(DefaultSlot)]), ("_outcomes", [Ternary(DefaultOutcome)])]
  }

  /** The default top processor reads the timestamp, carries over
      `_skipLearn` and `pdrop`, and fills in `_skipLearn = False` and
      `pdrop = 0.0` when the line lacks them. */
  lemma DefaultTopSpec(o: Json)
    requires o.Obj? && "Timestamp" in Dicts.Keys(o.entries)
    ensures DefaultTop(o).Ok?
    ensures Dicts.Keys(DefaultTop(o).value) == ["Timestamp", "_skipLearn", "pdrop"]
    ensures DefaultTop(o).value[0].1 == Field(o, "Timestamp").value
    ensures "_skipLearn" !in Dicts.Keys(o.entries) ==> DefaultTop(o).value[1].1 == Bool(false)
    ensures "_skipLearn" in Dicts.Keys(o.entries) ==> DefaultTop(o).value[1].1 == Field(o, "_skipLearn").value
    ensures "pdrop" !in Dicts.Keys(o.entries) ==> DefaultTop(o).value[2].1 == Num(0.0)
    ensures "pdrop" in Dicts.Keys(o.entries) ==> DefaultTop(o).value[2].1 == Field(o, "pdrop").value
  {
  }

  /** The default outcome processor succeeds exactly on a dict holding the
      four fields, and keeps exactly those four, with their values. */
  lemma DefaultOutcomeSpec(i: int, s: Json, e: Json)
    ensures DefaultOutcome(i, s, e).Ok? <==>
      s.Obj? && "_label_cost" in Dicts.Keys(s.entries) && "_id" in Dicts.Keys(s.entries) &&
      "_a" in Dicts.Keys(s.entries) && "_p" in Dicts.Keys(s.entries)
    ensures DefaultOutcome(i, s, e).Ok? ==>
      var r := DefaultOutcome(i, s, e).value;
      Dicts.Keys(r) == ["_label_cost", "_id", "_a", "_p"] &&
      forall j :: 0 <= j < 4 ==> Field(s, r[j].0) == Ok(r[j].1)
  {
    var c, id, a, p := Field(s, "_label_cost"), Field(s, "_id"), Field(s, "_a"), Field(s, "_p");
    if c.Ok? && id.Ok? && a.Ok? && p.Ok? {
      var r := [("_label_cost", c.value), ("_id", id.value), ("_a", a.value), ("_p", p.value)];
      assert DefaultOutcome(i, s, e) == Ok(r);
      assert Dicts.Keys(r) == ["_label_cost", "_id", "_a", "_p"];
    }
  }

  // ---------------------------------------------------------------------------
  // Merging processor outputs

  /** `[p(x) for p in procs]`, where the argument expression `x` is evaluated
      in each iteration (so never when `procs` is empty). */
  function Calls1(procs: seq<Proc>, x: Result<Json>): (rs: seq<Result<Record>>)
    ensures |rs| == |procs|
  {
    seq(|procs|, j requires 0 <= j < |procs| => (var v :- x; Call1(procs[j], v)))
  }

  /** `dict(ChainMap(*[p(x) for p in procs]))`. */
  function Merge1(procs: seq<Proc>, x: Result<Json>): Result<Record> {
    var ms :- Collect(Calls1(procs, x));
    Ok(Dicts.ChainMap(ms))
  }

  function Calls3(procs: seq<Proc>, i: int, o: Json, parsed: Json): (rs: seq<Result<Record>>)
    ensures |rs| == |procs| && forall j :: 0 <= j < |procs| ==> rs[j] == Call3(procs[j], i, o, parsed)
  {
    seq(|procs|, j requires 0 <= j < |procs| => Call3(procs[j], i, o, parsed))
  }

  /** `dict(ChainMap(*[p(i, o, parsed) for p in self.processors[key]]))`,
      with the group looked up on each use. */
  function Merge3(procs: Result<seq<Proc>>, i: int, o: Json, parsed: Json): Result<Record> {
    var ps :- procs;
    var ms :- Collect(Calls3(ps, i, o, parsed));
    Ok(Dicts.ChainMap(ms))
  }

  /** Processor outputs are dicts: their keys are distinct. */
  predicate DictOutputs(procs: seq<Proc>, i: int, o: Json, parsed: Json) {
    forall j :: 0 <= j < |procs| && Call3(procs[j], i, o, parsed).Ok? ==>
      Dicts.UniqueKeys(Call3(procs[j], i, o, parsed).value)
  }

  /** Where several processors give a key, the earliest processor's value
      wins. */
  lemma Merge3FirstWins(procs: seq<Proc>, i: int, o: Json, parsed: Json, k: string)
    requires Merge3(Ok(procs), i, o, parsed).Ok? && DictOutputs(procs, i, o, parsed)
    ensures var ms := Collect(Calls3(procs, i, o, parsed)).value;
      Dicts.Get(Merge3(Ok(procs), i, o, parsed).value, k) == Dicts.FirstGet(ms, k)
  {
    var ms := Collect(Calls3(procs, i, o, parsed)).value;
    Dicts.ChainMapGet(ms, k);
  }

  /** The merged dicts of one group over its items, in item order. */
  function GroupCalls(procs: Result<seq<Proc>>, items: seq<Json>, parsed: Json): (rs: seq<Result<Record>>)
    ensures |rs| == |items| && forall i :: 0 <= i < |items| ==> rs[i] == Merge3(procs, i, items[i], parsed)
  {
    seq(|items|, i requires 0 <= i < |items| => Merge3(procs, i, items[i], parsed))
  }

  /** One merged dict per item, in item order; the group is looked up only
      when there is an item. */
  function GroupSpec(procs: Result<seq<Proc>>, items: seq<Json>, parsed: Json): (r: Result<seq<Record>>)
    ensures r.Ok? ==> |r.value| == |items|
    ensures r.Ok? ==> forall i :: 0 <= i < |items| ==> Merge3(procs, i, items[i], parsed) == Ok(r.value[i])
    ensures items == [] ==> r == Ok([])
  {
    Collect(GroupCalls(procs, items, parsed))
  }

  /** `result = [None] * len(items)`, then `result[i] = ...` for each item. */
  method FillGroup(procs: Result<seq<Proc>>, items: seq<Json>, parsed: Json) returns (r: Result<seq<Record>>)
    ensures r == GroupSpec(procs, items, parsed)
  {
    var result := new Record[|items|](_ => []);
    ghost var calls := GroupCalls(procs, items, parsed);
    for i := 0 to |items|
      invariant Collect(calls[..i]) == Ok(result[..i])
    {
      var m := Merge3(procs, i, items[i], parsed);
      CollectStep(calls, i, result[..i]);
      if m.Err? {
        return Err(m.error);
      }
      ghost var before := result[..i];
      result[i] := m.value;
      assert result[..i + 1] == before + [m.value];
    }
    assert calls[..|items|] == calls;
    assert result[..|items|] == result[..];
    return Ok(result[..]);
  }

  // ---------------------------------------------------------------------------
  // _process_decision

  /** The text `json.loads` decodes from `line.encode('utf-8', 'ignore')`:
      bytes that open with the UTF-8 byte order mark are decoded as
      `utf-8-sig`, which drops it; any other line comes back unchanged. */
  function Reencoded(line: string): (r: string)
    ensures |line| > 0 && line[0] == '\U{FEFF}' ==> r == line[1..]
    ensures !(|line| > 0 && line[0] == '\U{FEFF}') ==> r == line
  {
    if |line| > 0 && line[0] == '\U{FEFF}' then line[1..] else line
  }

  /** The processor's `json_load`: the line is parsed, and on failure its
      UTF-8 re-encoding is. A JSON decode error is a `ValueError`. */
  function Load(parse: Parser, line: string): (r: Result<Json>)
    ensures r.Ok? <==> parse(line).Some? || parse(Reencoded(line)).Some?
    ensures parse(line).Some? ==> r == Ok(parse(line).value)
    ensures r.Err? ==> r.error == ValueError
  {
    match parse(line)
    case Some(j) => Ok(j)
    case None =>
      match parse(Reencoded(line))
      case Some(j) => Ok(j)
      case None => Err(ValueError)
  }

  /** A line that does not open with a byte order mark loads exactly when it
      parses: the retry reads the same text. */
  lemma LoadWithoutMark(parse: Parser, line: string)
    requires |line| == 0 || line[0] != '\U{FEFF}'
    ensures Load(parse, line).Ok? <==> parse(line).Some?
  {
  }

  /** A line that opens with a byte order mark and does not parse as text
      loads as the text after the mark. */
  lemma LoadDropsMark(parse: Parser, line: string)
    requires |line| > 0 && line[0] == '\U{FEFF}' && parse(line).None?
    ensures Load(parse, line) == if parse(line[1..]).Some? then Ok(parse(line[1..]).value) else Err(ValueError)
  {
  }

  /** The dicts `_process_decision` merges into its result. */
  datatype Parts = Parts(top: Record, shared: Record, actions: seq<Record>, slots: seq<Record>, outcomes: seq<Record>)

  /** The top and shared dicts, in the order the source computes them. */
  function HeadOf(pm: ProcMap, parsed: Json): Result<(Record, Record)> {
    var tp :- Group(pm, "/");
    var top :- Merge1(tp, Ok(parsed));
    var cp :- Group(pm, "c");
    var shared :- Merge1(cp, Field(parsed, "c"));
    Ok((top, shared))
  }

  /** The items of `parsed['c'][key]`. */
  function ContextItems(parsed: Json, key: string): Result<seq<Json>> {
    var c :- Field(parsed, "c");
    var v :- Field(c, key);
    Elements(v)
  }

  /** The items of `parsed['_outcomes']`. */
  function OutcomeItems(parsed: Json): Result<seq<Json>> {
    var v :- Field(parsed, "_outcomes");
    Elements(v)
  }

  function PartsOf(pm: ProcMap, parsed: Json): Result<Parts> {
    var head :- HeadOf(pm, parsed);
    var mitems :- ContextItems(parsed, "_multi");
    var actions :- GroupSpec(Group(pm, "_multi"), mitems, parsed);
    var sitems :- ContextItems(parsed, "_slots");
    var slots :- GroupSpec(Group(pm, "_slots"), sitems, parsed);
    var oitems :- OutcomeItems(parsed);
    var outcomes :- GroupSpec(Group(pm, "_outcomes"), oitems, parsed);
    Ok(Parts(head.0, head.1, actions, slots, outcomes))
  }

  function Objs(rs: seq<Record>): (js: seq<Json>)
    ensures |js| == |rs| && forall i :: 0 <= i < |rs| ==> js[i] == Obj(rs[i])
  {
    seq(|rs|, i requires 0 <= i < |rs| => Obj(rs[i]))
  }

  /** The inner dict `ChainMap(shared, {'_multi': actions, '_slots': slots})`. */
  function Context(parts: Parts): Record {
    Dicts.ChainMap([parts.shared, [("_multi", Arr(Objs(parts.actions))), ("_slots", Arr(Objs(parts.slots)))]])
  }

  /** `dict(ChainMap(top, {'c': ..., '_outcomes': outcomes}))`. */
  function Assemble(parts: Parts): Record {
    Dicts.ChainMap([parts.top, [("c", Obj(Context(parts))), ("_outcomes", Arr(Objs(parts.outcomes)))]])
  }

  /** The restructured decision of one line, before `json.dumps`. */
  function DecisionSpec(pm: ProcMap, parse: Parser, line: string): Result<Record> {
    var parsed :- Load(parse, line);
    var parts :- PartsOf(pm, parsed);
    Ok(Assemble(parts))
  }

  /** The restructured decision keeps one entry per action, slot and
      outcome of the line, each the merged dict of that item's processors. */
  lemma PartsCounts(pm: ProcMap, parsed: Json)
    requires PartsOf(pm, parsed).Ok?
    ensures var parts := PartsOf(pm, parsed).value;
      var ms, ss, os := ContextItems(parsed, "_multi"), ContextItems(parsed, "_slots"), OutcomeItems(parsed);
      ms.Ok? && ss.Ok? && os.Ok? &&
      |parts.actions| == |ms.value| && |parts.slots| == |ss.value| && |parts.outcomes| == |os.value| &&
      (forall i :: 0 <= i < |ms.value| ==> Merge3(Group(pm, "_multi"), i, ms.value[i], parsed) == Ok(parts.actions[i])) &&
      (forall i :: 0 <= i < |ss.value| ==> Merge3(Group(pm, "_slots"), i, ss.value[i], parsed) == Ok(parts.slots[i])) &&
      (forall i :: 0 <= i < |os.value| ==> Merge3(Group(pm, "_outcomes"), i, os.value[i], parsed) == Ok(parts.outcomes[i]))
  {
    assert HeadOf(pm, parsed).Ok?;
    var ms := ContextItems(parsed, "_multi");
    assert ms.Ok?;
    var actions := GroupSpec(Group(pm, "_multi"), ms.value, parsed);
    assert actions.Ok?;
    var ss := ContextItems(parsed, "_slots");
    assert ss.Ok?;
    var slots := GroupSpec(Group(pm, "_slots"), ss.value, parsed);
    assert slots.Ok?;
    var os := OutcomeItems(parsed);
    assert os.Ok?;
    var outcomes := GroupSpec(Group(pm, "_outcomes"), os.value, parsed);
    assert outcomes.Ok?;
    var parts := PartsOf(pm, parsed).value;
    assert parts.actions == actions.value && parts.slots == slots.value && parts.outcomes == outcomes.value;
  }

  /** Top-level fields win over `'c'` and `'_outcomes'`; without such a
      field, `'c'` holds the shared dict over the actions and slots, and
      `'_outcomes'` the outcomes. */
  lemma AssembleSpec(parts: Parts, k: string)
    requires Dicts.UniqueKeys(parts.top)
    ensures k in Dicts.Keys(parts.top) ==> Dicts.Get(Assemble(parts), k) == Dicts.Get(parts.top, k)
    ensures "c" !in Dicts.Keys(parts.top) ==> Dicts.Get(Assemble(parts), "c") == Some(Obj(Context(parts)))
    ensures "_outcomes" !in Dicts.Keys(parts.top) ==>
      Dicts.Get(Assemble(parts), "_outcomes") == Some(Arr(Objs(parts.outcomes)))
  {
    var inner := [("c", Obj(Context(parts))), ("_outcomes", Arr(Objs(parts.outcomes)))];
    assert Dicts.UniqueKeys(inner);
    Dicts.ChainMapGet([parts.top, inner], k);
    Dicts.ChainMapGet([parts.top, inner], "c");
    Dicts.ChainMapGet([parts.top, inner], "_outcomes");
    assert [parts.top, inner][1..] == [inner];
    assert Dicts.Get(inner, "c") == Some(Obj(Context(parts)));
    assert Dicts.Get(inner, "_outcomes") == Some(Arr(Objs(parts.outcomes)));
  }

  /** Shared-context fields win over `'_multi'` and `'_slots'`; without such
      a field, those hold the actions and the slots. */
  lemma ContextSpec(parts: Parts, k: string)
    requires Dicts.UniqueKeys(parts.shared)
    ensures k in Dicts.Keys(parts.shared) ==> Dicts.Get(Context(parts), k) == Dicts.Get(parts.shared, k)
    ensures "_multi" !in Dicts.Keys(parts.shared) ==> Dicts.Get(Context(parts), "_multi") == Some(Arr(Objs(parts.actions)))
    ensures "_slots" !in Dicts.Keys(parts.shared) ==> Dicts.Get(Context(parts), "_slots") == Some(Arr(Objs(parts.slots)))
  {
    var inner := [("_multi", Arr(Objs(parts.actions))), ("_slots", Arr(Objs(parts.slots)))];
    assert Dicts.UniqueKeys(inner);
    Dicts.ChainMapGet([parts.shared, inner], k);
    Dicts.ChainMapGet([parts.shared, inner], "_multi");
    Dicts.ChainMapGet([parts.shared, inner], "_slots");
    assert [parts.shared, inner][1..] == [inner];
    assert Dicts.Get(inner, "_multi") == Some(Arr(Objs(parts.actions)));
    assert Dicts.Get(inner, "_slots") == Some(Arr(Objs(parts.slots)));
  }

  // ---------------------------------------------------------------------------
  // _process_decision_csv

  /** Row `i` of the per-action rows: `dict(ChainMap(top, shared, actions))`. */
  function ActionRow(mp: seq<Proc>, top: Record, shared: Record, i: nat, o: Json, parsed: Json): Result<Record> {
    var a :- Merge3(Ok(mp), i, o, parsed);
    Ok(Dicts.ChainMap([top, shared, a]))
  }

  function ActionRowCalls(mp: seq<Proc>, top: Record, shared: Record, items: seq<Json>, parsed: Json): (rs: seq<Result<Record>>)
    ensures |rs| == |items| && forall i :: 0 <= i < |items| ==> rs[i] == ActionRow(mp, top, shared, i, items[i], parsed)
  {
    seq(|items|, i requires 0 <= i < |items| => ActionRow(mp, top, shared, i, items[i], parsed))
  }

  /** The per-action loop: `result.append(...)` for each action in order. */
  method AppendActionRows(mp: seq<Proc>, top: Record, shared: Record, items: seq<Json>, parsed: Json) returns (r: Result<seq<Record>>)
    ensures r == Collect(ActionRowCalls(mp, top, shared, items, parsed))
  {
    ghost var calls := ActionRowCalls(mp, top, shared, items, parsed);
    var rows := [];
    for i := 0 to |items|
      invariant Collect(calls[..i]) == Ok(rows)
    {
      var row := ActionRow(mp, top, shared, i, items[i], parsed);
      CollectStep(calls, i, rows);
      if row.Err? {
        return Err(row.error);
      }
      rows := rows + [row.value];
    }
    assert calls[..|items|] == calls;
    return Ok(rows);
  }

  /** Row `i` of the per-outcome rows: `dict(ChainMap(top, shared, slots[i],
      outcomes))`, where `slots[i]` raises `IndexError` past the slots. */
  function OutcomeRow(pm: ProcMap, top: Record, shared: Record, slots: seq<Record>, i: nat, o: Json, parsed: Json): Result<Record> {
    var out :- Merge3(Group(pm, "_outcomes"), i, o, parsed);
    if i < |slots| then Ok(Dicts.ChainMap([top, shared, slots[i], out])) else Err(IndexError)
  }

  function OutcomeRowCalls(pm: ProcMap, top: Record, shared: Record, slots: seq<Record>, items: seq<Json>, parsed: Json): (rs: seq<Result<Record>>)
    ensures |rs| == |items| && forall i :: 0 <= i < |items| ==> rs[i] == OutcomeRow(pm, top, shared, slots, i, items[i], parsed)
  {
    seq(|items|, i requires 0 <= i < |items| => OutcomeRow(pm, top, shared, slots, i, items[i], parsed))
  }

  /** The per-outcome loop: `result.append(...)` for each outcome in order. */
  method AppendOutcomeRows(pm: ProcMap, top: Record, shared: Record, slots: seq<Record>, items: seq<Json>, parsed: Json) returns (r: Result<seq<Record>>)
    ensures r == Collect(OutcomeRowCalls(pm, top, shared, slots, items, parsed))
  {
    ghost var calls := OutcomeRowCalls(pm, top, shared, slots, items, parsed);
    var rows := [];
    for i := 0 to |items|
      invariant Collect(calls[..i]) == Ok(rows)
    {
      var row := OutcomeRow(pm, top, shared, slots, i, items[i], parsed);
      CollectStep(calls, i, rows);
      if row.Err? {
        return Err(row.error);
      }
      rows := rows + [row.value];
    }
    assert calls[..|items|] == calls;
    return Ok(rows);
  }

  /** The rows `_process_decision_csv` gives for one line. */
  function CsvRows(pm: ProcMap, parse: Parser, line: string): Result<seq<Record>> {
    var parsed :- Load(parse, line);
    var head :- HeadOf(pm, parsed);
    var mp :- Group(pm, "_multi");
    if mp != [] then
      var mitems :- ContextItems(parsed, "_multi");
      Collect(ActionRowCalls(mp, head.0, head.1, mitems, parsed))
    else
      var sitems :- ContextItems(parsed, "_slots");
      var slots :- GroupSpec(Group(pm, "_slots"), sitems, parsed);
      var oitems :- OutcomeItems(parsed);
      Collect(OutcomeRowCalls(pm, head.0, head.1, slots, oitems, parsed))
  }

  /** With action processors there is one row per action; otherwise one row
      per outcome, which needs a slot for every outcome. */
  lemma CsvRowCounts(pm: ProcMap, parse: Parser, line: string)
    requires CsvRows(pm, parse, line).Ok?
    ensures var parsed := Load(parse, line).value;
      var rows := CsvRows(pm, parse, line).value;
      Group(pm, "_multi").Ok? &&
      (Group(pm, "_multi").value != [] ==>
        ContextItems(parsed, "_multi").Ok? && |rows| == |ContextItems(parsed, "_multi").value|) &&
      (Group(pm, "_multi").value == [] ==>
        ContextItems(parsed, "_slots").Ok? && OutcomeItems(parsed).Ok? &&
        |rows| == |OutcomeItems(parsed).value| <= |ContextItems(parsed, "_slots").value|)
  {
    var parsed := Load(parse, line).value;
    var head := HeadOf(pm, parsed).value;
    if Group(pm, "_multi").value == [] {
      var sitems := ContextItems(parsed, "_slots").value;
      var slots := GroupSpec(Group(pm, "_slots"), sitems, parsed).value;
      var oitems := OutcomeItems(parsed).value;
      assert CsvRows(pm, parse, line) == Collect(OutcomeRowCalls(pm, head.0, head.1, slots, oitems, parsed));
      OutcomeRowsBound(pm, head.0, head.1, slots, oitems, parsed);
    }
  }

  /** Every outcome row needs the slot of the same index. */
  lemma OutcomeRowsBound(pm: ProcMap, top: Record, shared: Record, slots: seq<Record>, items: seq<Json>, parsed: Json)
    requires Collect(OutcomeRowCalls(pm, top, shared, slots, items, parsed)).Ok?
    ensures |Collect(OutcomeRowCalls(pm, top, shared, slots, items, parsed)).value| == |items| <= |slots|
  {
    OutcomeRowPast(pm, top, shared, slots, items, parsed);
  }

  /** The first outcome without a slot raises. */
  lemma OutcomeRowPast(pm: ProcMap, top: Record, shared: Record, slots: seq<Record>, items: seq<Json>, parsed: Json)
    ensures |items| > |slots| ==> OutcomeRowCalls(pm, top, shared, slots, items, parsed)[|slots|].Err?
  {
  }

  // ---------------------------------------------------------------------------
  // process and process_csv

  /** `process(lines)`: the filtered lines, each turned into its
      restructured decision, dumped and ended with a newline, when there is
      more than one processor group; otherwise the filtered lines as they
      are. The lazy `map` is taken as consumed in order. */
  function ProcessSpec(pm: ProcMap, filters: seq<LineFilter>, parse: Parser, dumps: Json -> string, lines: seq<string>): Result<seq<string>> {
    var ls := ApplyFilters(filters, lines);
    if |pm| > 1 then Collect(DumpCalls(pm, parse, dumps, ls)) else Ok(ls)
  }

  function DumpLine(pm: ProcMap, parse: Parser, dumps: Json -> string, line: string): Result<string> {
    var d :- DecisionSpec(pm, parse, line);
    Ok(dumps(Obj(d)) + "\n")
  }

  function DumpCalls(pm: ProcMap, parse: Parser, dumps: Json -> string, ls: seq<string>): (rs: seq<Result<string>>)
    ensures |rs| == |ls| && forall k :: 0 <= k < |ls| ==> rs[k] == DumpLine(pm, parse, dumps, ls[k])
  {
    seq(|ls|, k requires 0 <= k < |ls| => DumpLine(pm, parse, dumps, ls[k]))
  }

  /** With more than one group, `process` gives exactly one newline-ended
      line per line the last filter accepts, in order: the dump of that
      line's decision. With one group or none it gives those lines as they
      are. */
  lemma ProcessLines(pm: ProcMap, filters: seq<LineFilter>, parse: Parser, dumps: Json -> string, lines: seq<string>)
    ensures var ls := if filters == [] then lines else Filter(filters[|filters| - 1], lines);
      var r := ProcessSpec(pm, filters, parse, dumps, lines);
      (|pm| <= 1 ==> r == Ok(ls)) &&
      (|pm| > 1 ==> (r.Ok? <==> forall k :: 0 <= k < |ls| ==> DecisionSpec(pm, parse, ls[k]).Ok?)) &&
      (|pm| > 1 && r.Ok? ==> (|r.value| == |ls| &&
        forall k :: 0 <= k < |ls| ==>
          r.value[k] == dumps(Obj(DecisionSpec(pm, parse, ls[k]).value)) + "\n" &&
          r.value[k][|r.value[k]| - 1] == '\n'))
  {
    ApplyFiltersLast(filters, lines);
  }

  /** `process_csv`'s guard: action processors together with slot or
      outcome processors raise; the groups are looked up lazily. */
  function CsvConflict(pm: ProcMap): Result<bool> {
    var mp :- Group(pm, "_multi");
    if mp == [] then Ok(false)
    else
      var sp :- Group(pm, "_slots");
      if sp != [] then Ok(true)
      else
        var op :- Group(pm, "_outcomes");
        Ok(op != [])
  }

  const CsvConflictMessage := "Cannot process both slots and actions in csv processing"

  function Concat<T>(xss: seq<seq<T>>): (r: seq<T>) {
    if xss == [] then [] else Concat(xss[..|xss| - 1]) + xss[|xss| - 1]
  }

  function LineRowCalls(pm: ProcMap, parse: Parser, ls: seq<string>): (rs: seq<Result<seq<Record>>>)
    ensures |rs| == |ls| && forall k :: 0 <= k < |ls| ==> rs[k] == CsvRows(pm, parse, ls[k])
  {
    seq(|ls|, k requires 0 <= k < |ls| => CsvRows(pm, parse, ls[k]))
  }

  /** `process_csv(lines)`: after the guard, the rows of every filtered
      line, one line after the other. */
  function ProcessCsvSpec(pm: ProcMap, filters: seq<LineFilter>, parse: Parser, lines: seq<string>): Result<seq<Record>> {
    var conflict :- CsvConflict(pm);
    if conflict then Err(Raised(CsvConflictMessage))
    else
      var rows :- Collect(LineRowCalls(pm, parse, ApplyFilters(filters, lines)));
      Ok(Concat(rows))
  }

  /** With all three groups present, `process_csv` raises the guard's
      exception exactly when it finds action processors and slot or outcome
      processors, before reading any line. */
  lemma ProcessCsvConflict(pm: ProcMap, filters: seq<LineFilter>, parse: Parser, lines: seq<string>)
    requires "_multi" in Dicts.Keys(pm) && "_slots" in Dicts.Keys(pm) && "_outcomes" in Dicts.Keys(pm)
    ensures var mp, sp, op := Group(pm, "_multi").value, Group(pm, "_slots").value, Group(pm, "_outcomes").value;
      CsvConflict(pm) == Ok(mp != [] && (sp != [] || op != [])) &&
      (mp != [] && (sp != [] || op != []) ==> ProcessCsvSpec(pm, filters, parse, lines) == Err(Raised(CsvConflictMessage)))
  {
  }

  /** Without a conflict, `process_csv` gives the rows of every line the last
      filter accepts, in order, and raises exactly when one of those lines
      does. */
  lemma ProcessCsvRows(pm: ProcMap, filters: seq<LineFilter>, parse: Parser, lines: seq<string>)
    requires CsvConflict(pm) == Ok(false)
    ensures var ls := if filters == [] then lines else Filter(filters[|filters| - 1], lines);
      var r := ProcessCsvSpec(pm, filters, parse, lines);
      var all := Collect(LineRowCalls(pm, parse, ls));
      (r.Ok? <==> forall k :: 0 <= k < |ls| ==> CsvRows(pm, parse, ls[k]).Ok?) &&
      (r.Ok? ==> (all.Ok? && r.value == Concat(all.value) && |all.value| == |ls| &&
        forall k :: 0 <= k < |ls| ==> CsvRows(pm, parse, ls[k]) == Ok(all.value[k])))
  {
    ApplyFiltersLast(filters, lines);
  }

  // ---------------------------------------------------------------------------
  // Processor

  class Processor {
    var processors: ProcMap
    var filters: seq<LineFilter>

    /** `Processor(processors, filters)`: `None` keeps the class defaults,
        the default processors and `[filters.is_decision]`; any other value,
        even an empty one, replaces them. */
    constructor(isDecision: LineFilter, processors: Option<ProcMap>, filters: Option<seq<LineFilter>>)
      ensures this.processors == if processors.Some? then processors.value else DefaultProcessors()
      ensures this.filters == if filters.Some? then filters.value else [isDecision]
    {
      this.processors := if processors.Some? then processors.value else DefaultProcessors();
      this.filters := if filters.Some? then filters.value else [isDecision];
    }

    /** `_process_decision(line)`, before `json.dumps`: the groups' merged
        dicts, with the action, slot and outcome lists filled item by item. */
    method ProcessDecision(line: string, parse: Parser) returns (r: Result<Record>)
      ensures r == DecisionSpec(processors, parse, line)
    {
      var parsed :- Load(parse, line);
      var head :- HeadOf(processors, parsed);
      var mitems :- ContextItems(parsed, "_multi");
      var actions :- FillGroup(Group(processors, "_multi"), mitems, parsed);
      var sitems :- ContextItems(parsed, "_slots");
      var slots :- FillGroup(Group(processors, "_slots"), sitems, parsed);
      var oitems :- OutcomeItems(parsed);
      var outcomes :- FillGroup(Group(processors, "_outcomes"), oitems, parsed);
      r := Ok(Assemble(Parts(head.0, head.1, actions, slots, outcomes)));
    }

    /** `_process_decision_csv(line)`: one row per action when there are
        action processors, otherwise one row per outcome, joined with the
        slot of the same index. */
    method ProcessDecisionCsv(line: string, parse: Parser) returns (r: Result<seq<Record>>)
      ensures r == CsvRows(processors, parse, line)
    {
      var parsed :- Load(parse, line);
      var head :- HeadOf(processors, parsed);
      var mp :- Group(processors, "_multi");
      if mp != [] {
        var mitems :- ContextItems(parsed, "_multi");
        r := AppendActionRows(mp, head.0, head.1, mitems, parsed);
      } else {
        var sitems :- ContextItems(parsed, "_slots");
        var slots :- FillGroup(Group(processors, "_slots"), sitems, parsed);
        var oitems :- OutcomeItems(parsed);
        r := AppendOutcomeRows(processors, head.0, head.1, slots, oitems, parsed);
      }
    }
  }
}
