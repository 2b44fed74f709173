/** `vw_sim/example.py`: the regression example, rendered as one VW text line. */
module VwExample {
  import opened Wrappers
  import opened VwCore
  import Dicts

  /** `Regression.txt`: a list holding the single line
      `f'{label} |{features.txt}'`; it raises where `features.txt` raises. */
  function RegressionTxt(e: Example): (r: Result<seq<string>>)
    ensures r.Ok? <==> e.features.Txt().Ok?
    ensures r.Err? ==> r.error == e.features.Txt().error
    ensures r.Ok? ==> |r.value| == 1
  {
    match e.features.Txt()
    case Err(err) => Err(err)
    case Ok(t) => Ok([AtomText(e.value) + " |" + t])
  }

  /** `Regression.dsjson` is not implemented and always raises. */
  function RegressionDsjson(e: Example): (r: Result<string>)
    ensures r.Err? && r.error == NotImplementedError
  {
    Err(NotImplementedError)
  }

  /** The line is the label's `str()`, then `' |'`, then the text of exactly
      the features the example was built from. */
  lemma RegressionLine(features: Value, lbl: Atom)
    requires Features(features).Txt().Ok?
    ensures var line := RegressionTxt(Example(Features(features), lbl)).value[0];
      var head := AtomText(lbl) + " |";
      |line| >= |head| && line[..|head|] == head && line[|head|..] == Features(features).Txt().value
  {
    var head := AtomText(lbl) + " |";
    var line := head + Features(features).Txt().value;
    assert line[..|head|] == head;
    assert line[|head|..] == Features(features).Txt().value;
  }

  /** A label with a dictionary of scalar features (distinct keys) gives
      `'<label> | <flat text> '`: one unnamed namespace. */
  lemma RegressionScalarLine(es: seq<(string, Value)>, lbl: Atom)
    requires es != [] && Dicts.UniqueKeys(es)
    requires forall m :: 0 <= m < |es| ==> es[m].1.Leaf?
    ensures Flat(es) && FlatText(es).Ok?
    ensures RegressionTxt(Example(Features(Dict(es)), lbl)) ==
      Ok([AtomText(lbl) + " | " + FlatText(es).value + " "])
  {
    ScalarFeaturesTxt(es);
    assert AtomText(lbl) + " |" + (" " + FlatText(es).value + " ") ==
      AtomText(lbl) + " | " + FlatText(es).value + " ";
  }

  /** A list given as the features makes the line raise `NotImplementedError`. */
  lemma RegressionListFeatures(items: seq<Value>, lbl: Atom)
    ensures RegressionTxt(Example(Features(List(items)), lbl)) == Err(NotImplementedError)
  {
    NamespacesFail(List(items));
  }

  /** An example from a factory carries the label computed from its own
      features, so its line starts with that label's text. */
  lemma FactoryLine(ef: ExampleFactory, i: int)
    requires ef.Get(i).Ok? && ef.Get(i).value.features.Txt().Ok?
    ensures var e := ef.Get(i).value;
      var head := AtomText(ef.lg(e.features.impl, i)) + " |";
      RegressionTxt(e).Ok? && RegressionTxt(e).value[0][..|head|] == head
  {
    var e := ef.Get(i).value;
    ExampleFactoryGet(ef, i);
    RegressionLine(e.features.impl, e.value);
  }
}
