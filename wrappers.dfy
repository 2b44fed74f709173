/** Option and Result values shared by every module, and the Python exceptions
    that the modelled code can raise (a raised exception becomes an `Err`). */
module Wrappers {

  datatype Option<+T> = None | Some(value: T)

  /** The kinds of exception the modelled Python code raises. */
  datatype PyError =
    | KeyError(key: string)
    | IndexError
    | TypeError
    | ValueError
    | ZeroDivisionError
    | NotImplementedError
    | AttributeError(name: string)
    | FileNotFoundError(path: string)
    | Raised(message: string)

  /** The outcome of a call that either returns a value or raises. */
  datatype Result<+T> = Ok(value: T) | Err(error: PyError) {
    predicate IsFailure() { Err? }

    function PropagateFailure<U>(): Result<U>
      requires Err?
    {
      Err(error)
    }

    function Extract(): T
      requires Ok?
    {
      value
    }
  }

  /** Concatenation is associative; a lemma of its own keeps the
      sequence reasoning out of larger proofs. */
  lemma AppendAssoc<T>(x: seq<T>, y: seq<T>, z: seq<T>)
    ensures (x + y) + z == x + (y + z)
  {
  }

  /** Evaluate a sequence of calls in order, as a Python loop or list
      comprehension does: the first one that raises ends the whole. */
  function Collect<T>(rs: seq<Result<T>>): (r: Result<seq<T>>)
    ensures r.Ok? <==> forall i :: 0 <= i < |rs| ==> rs[i].Ok?
    ensures r.Ok? ==> |r.value| == |rs| && forall i :: 0 <= i < |rs| ==> r.value[i] == rs[i].value
    ensures r.Err? ==> exists i :: 0 <= i < |rs| && rs[i] == Err(r.error) && forall j :: 0 <= j < i ==> rs[j].Ok?
  {
    if rs == [] then Ok([])
    else match rs[0]
      case Err(e) => Err(e)
      case Ok(v) =>
        match Collect(rs[1..])
        case Err(e) => Err(e)
        case Ok(vs) => Ok([v] + vs)
  }

  /** A single call that returns gives its value alone. */
  lemma CollectSingle<T>(x: Result<T>)
    requires x.Ok?
    ensures Collect([x]) == Ok([x.value])
  {
    assert [x][1..] == [];
    assert Collect([x][1..]) == Ok([]);
    assert [x.value] + [] == [x.value];
  }

  /** Evaluating one more call after a prefix: the prefix's error, else the
      new call's error, else the values so far followed by the new one. */
  lemma {:induction false} CollectSnoc<T>(rs: seq<Result<T>>, x: Result<T>)
    ensures Collect(rs + [x]) ==
      match Collect(rs)
      case Err(e) => Err(e)
      case Ok(vs) => (match x case Err(e) => Err(e) case Ok(v) => Ok(vs + [v]))
  {
    if rs == [] {
      assert rs + [x] == [x] && [x][1..] == [];
      assert Collect([x][1..]) == Ok([]);
      assert Collect(rs) == Ok([]);
      match x {
        case Err(e) =>
          assert Collect([x]) == Err(e);
        case Ok(v) =>
          assert [v] + [] == [v];
          assert Collect([x]) == Ok([v]);
          assert [] + [v] == [v];
      }
    } else {
      var ys := rs + [x];
      assert ys[0] == rs[0];
      assert ys[1..] == rs[1..] + [x];
      CollectSnoc(rs[1..], x);
      assert Collect(ys) == match rs[0]
        case Err(e) => Err(e)
        case Ok(v) => (match Collect(rs[1..] + [x]) case Err(e) => Err(e) case Ok(vs) => Ok([v] + vs));
      if rs[0].Ok? && Collect(rs[1..]).Ok? && x.Ok? {
        assert [rs[0].value] + (Collect(rs[1..]).value + [x.value]) ==
          ([rs[0].value] + Collect(rs[1..]).value) + [x.value];
      }
    }
  }

  /** One step of a loop over the calls: with the first `i` calls done,
      call `i` either ends the whole evaluation with its error or extends
      the values so far. */
  lemma CollectStep<T>(rs: seq<Result<T>>, i: nat, vs: seq<T>)
    requires i < |rs| && Collect(rs[..i]) == Ok(vs)
    ensures rs[i].Err? ==> Collect(rs) == Err(rs[i].error)
    ensures rs[i].Ok? ==> Collect(rs[..i + 1]) == Ok(vs + [rs[i].value])
  {
    if rs[i].Err? {
      CollectStepErr(rs, i);
    } else {
      CollectStepOk(rs, i, vs);
    }
  }

  lemma CollectStepOk<T>(rs: seq<Result<T>>, i: nat, vs: seq<T>)
    requires i < |rs| && Collect(rs[..i]) == Ok(vs) && rs[i].Ok?
    ensures Collect(rs[..i + 1]) == Ok(vs + [rs[i].value])
  {
    assert rs[..i + 1] == rs[..i] + [rs[i]];
    CollectSnoc(rs[..i], rs[i]);
  }

  lemma CollectStepErr<T>(rs: seq<Result<T>>, i: nat)
    requires i < |rs| && Collect(rs[..i]).Ok? && rs[i].Err?
    ensures Collect(rs) == Err(rs[i].error)
  {
    forall m | 0 <= m < i
      ensures rs[m].Ok?
    {
      assert rs[..i][m] == rs[m];
    }
    CollectFirstErr(rs, i);
  }

  /** Evaluating two runs of calls one after the other, when neither raises,
      gives the first run's values followed by the second's. */
  lemma CollectAppend<T>(a: seq<Result<T>>, b: seq<Result<T>>)
    requires Collect(a).Ok? && Collect(b).Ok?
    ensures Collect(a + b) == Ok(Collect(a).value + Collect(b).value)
  {
    var ab, vs := a + b, Collect(a).value + Collect(b).value;
    forall i | 0 <= i < |ab|
      ensures ab[i].Ok? && ab[i].value == vs[i]
    {
      if i < |a| {
        assert ab[i] == a[i];
      } else {
        assert ab[i] == b[i - |a|];
      }
    }
    assert Collect(ab).value == vs;
  }

  /** Once a prefix of the calls raises, the whole evaluation raises the same. */
  lemma {:induction false} CollectErrPrefix<T>(rs: seq<Result<T>>, j: nat)
    requires j <= |rs| && Collect(rs[..j]).Err?
    ensures Collect(rs) == Collect(rs[..j])
  {
    var e := Collect(rs[..j]).error;
    var i :| 0 <= i < j && rs[..j][i] == Err(e) && forall m :: 0 <= m < i ==> rs[..j][m].Ok?;
    assert rs[i] == Err(e) && forall m :: 0 <= m < i ==> rs[m].Ok?;
    CollectFirstErr(rs, i);
    CollectFirstErr(rs[..j], i);
  }

  /** When call `i` is the first to raise, its error is the outcome. */
  lemma {:induction false} CollectFirstErr<T>(rs: seq<Result<T>>, i: nat)
    requires i < |rs| && rs[i].Err? && forall m :: 0 <= m < i ==> rs[m].Ok?
    ensures Collect(rs) == Err(rs[i].error)
  {
    if i > 0 {
      assert rs[0].Ok?;
      CollectFirstErr(rs[1..], i - 1);
    }
  }
}
