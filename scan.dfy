/**
 * What a scan's iterator yields, read to the end: either every result it
 * delivered, or the error of the first Next() call that failed.
 */
module Scan {
  import opened Types

  /** The values of the steps in order, or the first error among them. */
  function Collect<T>(steps: seq<Result<T>>): (r: Result<seq<T>>)
    ensures r.Ok? ==> |r.value| == |steps|
    decreases |steps|
  {
    if steps == [] then Ok([])
    else
      match Collect(steps[..|steps| - 1])
      case Err(m) => Err(m)
      case Ok(xs) =>
        match steps[|steps| - 1]
        case Err(m) => Err(m)
        case Ok(x) => Ok(xs + [x])
  }

  /** The steps that deliver exactly the given values. */
  function Delivering<T>(xs: seq<T>): seq<Result<T>>
  {
    seq(|xs|, i requires 0 <= i < |xs| => Ok(xs[i]))
  }

  /** Collect succeeds exactly when no step failed, and then yields the steps' values in order. */
  lemma {:induction false} CollectOk<T>(steps: seq<Result<T>>)
    ensures Collect(steps).Ok? <==> forall i :: 0 <= i < |steps| ==> steps[i].Ok?
    ensures Collect(steps).Ok? ==> Delivering(Collect(steps).value) == steps
    decreases |steps|
  {
    if steps != [] {
      var init := steps[..|steps| - 1];
      CollectOk(init);
      assert forall i :: 0 <= i < |init| ==> init[i] == steps[i];
      if Collect(steps).Ok? {
        var xs := Collect(init).value;
        assert Collect(steps).value == xs + [steps[|steps| - 1].value];
        assert Delivering(Collect(steps).value) == Delivering(xs) + [steps[|steps| - 1]];
        assert init + [steps[|steps| - 1]] == steps;
      }
    }
  }

  /** Reading steps that all succeed gives back their values. */
  lemma CollectDelivering<T>(xs: seq<T>)
    ensures Collect(Delivering(xs)) == Ok(xs)
  {
    var steps := Delivering(xs);
    CollectOk(steps);
    var ys := Collect(steps).value;
    assert |Delivering(ys)| == |ys| == |xs|;
    forall i | 0 <= i < |xs| ensures ys[i] == xs[i] {
      assert Delivering(ys)[i] == Ok(ys[i]);
    }
    assert ys == xs;
  }

  /** Once a prefix of the steps has failed, later steps do not matter. */
  lemma {:induction false} CollectErrorPersists<T>(steps: seq<Result<T>>, k: nat)
    requires k <= |steps|
    requires Collect(steps[..k]).Err?
    ensures Collect(steps) == Collect(steps[..k])
    decreases |steps| - k
  {
    if k < |steps| {
      assert steps[..k + 1][..k] == steps[..k];
      CollectErrorPersists(steps, k + 1);
    } else {
      assert steps[..k] == steps;
    }
  }

  /** A scan that fails after some successful steps reports the failing step's error. */
  lemma FirstError<T>(steps: seq<Result<T>>, i: nat)
    requires i < |steps| && steps[i].Err?
    requires forall j :: 0 <= j < i ==> steps[j].Ok?
    ensures Collect(steps) == Err(steps[i].message)
  {
    var init := steps[..i];
    CollectOk(init);
    assert steps[..i + 1][..i] == init;
    CollectErrorPersists(steps, i + 1);
  }
}
