/** `vw_sim/simulation.py`: a simulation is a list of generated examples,
    rendered as the concatenation of their VW text lines. */
module VwSimulation {
  import opened Wrappers
  import opened VwCore
  import opened VwExample

  /** `Simulation(examples)`: the examples, in the order given. */
  datatype Simulation = Simulation(examples: seq<Example>)

  /** `Simulation.run(example_gen, count)`: `example_gen.get(i)` for `i` in
      `range(count)`, in order; the first example that raises ends the run. */
  function Run(gen: ExampleFactory, count: int): (r: Result<Simulation>)
    ensures r.Ok? <==> forall i :: 0 <= i < count ==> gen.Get(i).Ok?
    ensures r.Ok? ==> |r.value.examples| == (if count < 0 then 0 else count)
    ensures r.Ok? ==> forall i :: 0 <= i < |r.value.examples| ==> gen.Get(i) == Ok(r.value.examples[i])
    ensures r.Err? ==> exists i :: 0 <= i < count && gen.Get(i) == Err(r.error)
  {
    var n := if count < 0 then 0 else count;
    match Collect(seq(n, i => gen.Get(i)))
    case Err(e) => Err(e)
    case Ok(exs) => Ok(Simulation(exs))
  }

  /** `Simulation.txt`: every example's `txt` lines, one example after the
      other; an example whose text raises ends the iteration. */
  function Txt(exs: seq<Example>): (r: Result<seq<string>>)
    ensures r.Ok? ==> |r.value| == |exs|
  {
    if exs == [] then Ok([])
    else
      match Txt(exs[..|exs| - 1])
      case Err(e) => Err(e)
      case Ok(lines) =>
        match RegressionTxt(exs[|exs| - 1])
        case Err(e) => Err(e)
        case Ok(ls) => Ok(lines + ls)
  }

  /** The text of a simulation raises exactly when some example's text
      does. */
  lemma {:induction false} TxtOk(exs: seq<Example>)
    ensures Txt(exs).Ok? <==> forall i :: 0 <= i < |exs| ==> RegressionTxt(exs[i]).Ok?
  {
    if exs != [] {
      var init := exs[..|exs| - 1];
      TxtOk(init);
      assert forall i :: 0 <= i < |init| ==> init[i] == exs[i];
    }
  }

  /** The text of a simulation holds line `i` of example `i`'s text, for
      every example, and it raises exactly when some example's text does. */
  lemma {:induction false} TxtLines(exs: seq<Example>)
    ensures Txt(exs).Ok? <==> forall i :: 0 <= i < |exs| ==> RegressionTxt(exs[i]).Ok?
    ensures Txt(exs).Ok? ==> forall i :: 0 <= i < |exs| ==> Txt(exs).value[i] == RegressionTxt(exs[i]).value[0]
  {
    TxtOk(exs);
    if exs != [] && Txt(exs).Ok? {
      var init, last := exs[..|exs| - 1], exs[|exs| - 1];
      assert exs == init + [last];
      TxtSnocParts(init, last);
      TxtSnocOk(init, last);
      TxtLines(init);
      var lines, ls := Txt(init).value, RegressionTxt(last).value;
      forall i | 0 <= i < |exs|
        ensures Txt(exs).value[i] == RegressionTxt(exs[i]).value[0]
      {
        if i < |init| {
          assert init[i] == exs[i];
        } else {
          assert exs[i] == last;
        }
      }
    }
  }

  /** The text of two simulations one after the other is the first one's
      lines followed by the second one's. */
  lemma {:induction false} TxtAppend(a: seq<Example>, b: seq<Example>)
    requires Txt(a).Ok? && Txt(b).Ok?
    ensures Txt(a + b) == Ok(Txt(a).value + Txt(b).value)
  {
    if b == [] {
      assert a + b == a;
      assert Txt(a).value + Txt(b).value == Txt(a).value;
    } else {
      var b', e := b[..|b| - 1], b[|b| - 1];
      assert b == b' + [e];
      TxtSnocParts(b', e);
      TxtAppend(a, b');
      TxtAppendSnoc(a, b', e);
    }
  }

  /** The step of `TxtAppend`: one more example at the end of the second run. */
  lemma TxtAppendSnoc(a: seq<Example>, b: seq<Example>, e: Example)
    requires Txt(a).Ok? && Txt(b).Ok? && Txt(b + [e]).Ok?
    requires Txt(a + b) == Ok(Txt(a).value + Txt(b).value)
    ensures Txt(a + (b + [e])) == Ok(Txt(a).value + Txt(b + [e]).value)
  {
    TxtSnocParts(b, e);
    TxtSnocOk(b, e);
    TxtSnocOk(a + b, e);
    AppendAssoc(Txt(a).value, Txt(b).value, RegressionTxt(e).value);
    assert a + (b + [e]) == (a + b) + [e];
  }

  /** When one more example renders, so did the ones before it and so
      does the new one. */
  lemma TxtSnocParts(exs: seq<Example>, e: Example)
    requires Txt(exs + [e]).Ok?
    ensures Txt(exs).Ok? && RegressionTxt(e).Ok?
  {
    var s := exs + [e];
    assert s[..|s| - 1] == exs && s[|s| - 1] == e;
  }

  /** One more example after others that render: their lines, then its line. */
  lemma TxtSnocOk(exs: seq<Example>, e: Example)
    requires Txt(exs).Ok? && RegressionTxt(e).Ok?
    ensures Txt(exs + [e]) == Ok(Txt(exs).value + RegressionTxt(e).value)
  {
    var s := exs + [e];
    assert s[..|s| - 1] == exs && s[|s| - 1] == e;
  }

  /** `Simulation.dsjson`: the lazy `map` of `dsjson` over the examples, one
      entry per example, each of which raises when it is consumed. */
  function Dsjson(exs: seq<Example>): (r: seq<Result<string>>)
    ensures |r| == |exs|
    ensures forall i :: 0 <= i < |r| ==> r[i] == RegressionDsjson(exs[i])
  {
    seq(|exs|, i requires 0 <= i < |exs| => RegressionDsjson(exs[i]))
  }

  /** A generated simulation renders, for each index in order, the line of
      the example that the factory gives for that index. */
  lemma RunTxt(gen: ExampleFactory, count: int)
    requires Run(gen, count).Ok? && Txt(Run(gen, count).value.examples).Ok?
    ensures var lines := Txt(Run(gen, count).value.examples).value;
      |lines| == (if count < 0 then 0 else count) &&
      forall i :: 0 <= i < |lines| ==> RegressionTxt(gen.Get(i).value).Ok? && lines[i] == RegressionTxt(gen.Get(i).value).value[0]
  {
    TxtLines(Run(gen, count).value.examples);
  }
}
