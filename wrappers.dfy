/** Option and Result: absence and failure as values, in place of Python's
    None and raised exceptions. */
module Wrappers {

  datatype Option<+T> = None | Some(value: T)

  datatype Result<+T, +E> = Ok(value: T) | Err(error: E)

  /** A loop that applies `f` to each element in order and collects the
      results, stopping at the first element that raises. */
  function MapResults<A, B, E>(f: A -> Result<B, E>, xs: seq<A>): (r: Result<seq<B>, E>)
    ensures r.Ok? ==> |r.value| == |xs| && forall i :: 0 <= i < |xs| ==> f(xs[i]) == Ok(r.value[i])
  {
    if xs == [] then Ok([])
    else
      match MapResults(f, xs[..|xs| - 1])
      case Err(e) => Err(e)
      case Ok(ys) =>
        match f(xs[|xs| - 1])
        case Err(e) => Err(e)
        case Ok(y) => Ok(ys + [y])
  }

  /** Every element succeeds: the collected results are exactly theirs. */
  lemma {:induction false} MapResultsOk<A, B, E>(f: A -> Result<B, E>, xs: seq<A>, ys: seq<B>)
    requires |ys| == |xs| && forall i :: 0 <= i < |xs| ==> f(xs[i]) == Ok(ys[i])
    ensures MapResults(f, xs) == Ok(ys)
  {
    if xs != [] {
      var n := |xs|;
      MapResultsOk(f, xs[..n - 1], ys[..n - 1]);
      assert ys == ys[..n - 1] + [ys[n - 1]];
    }
  }

  /** The error of a failing run is that of the first element that fails. */
  lemma {:induction false} MapResultsFirstErr<A, B, E>(f: A -> Result<B, E>, xs: seq<A>)
    requires MapResults(f, xs).Err?
    ensures exists i :: 0 <= i < |xs| && f(xs[i]) == Err(MapResults(f, xs).error) &&
              forall j :: 0 <= j < i ==> f(xs[j]).Ok?
  {
    var n := |xs|;
    var init := xs[..n - 1];
    if MapResults(f, init).Err? {
      MapResultsFirstErr(f, init);
      var i :| 0 <= i < |init| && f(init[i]) == Err(MapResults(f, init).error) &&
               forall j :: 0 <= j < i ==> f(init[j]).Ok?;
      assert xs[i] == init[i];
      assert forall j :: 0 <= j < i ==> xs[j] == init[j];
    } else {
      assert f(xs[n - 1]).Err?;
      assert forall j :: 0 <= j < n - 1 ==> xs[j] == init[j];
    }
  }

  /** One more element: the loop stops at it when it raises, else appends its result. */
  lemma MapResultsStep<A, B, E>(f: A -> Result<B, E>, xs: seq<A>, i: nat)
    requires i < |xs| && MapResults(f, xs[..i]).Ok?
    ensures f(xs[i]).Err? ==> MapResults(f, xs[..i + 1]) == Err(f(xs[i]).error)
    ensures f(xs[i]).Ok? ==> MapResults(f, xs[..i + 1]) == Ok(MapResults(f, xs[..i]).value + [f(xs[i]).value])
  {
    assert xs[..i + 1][..i] == xs[..i];
  }

  /** A failure within a prefix is the failure of the whole run. */
  lemma {:induction false} MapResultsPrefixErr<A, B, E>(f: A -> Result<B, E>, xs: seq<A>, k: nat)
    requires k <= |xs| && MapResults(f, xs[..k]).Err?
    ensures MapResults(f, xs) == MapResults(f, xs[..k])
    decreases |xs| - k
  {
    var n := |xs|;
    if k < n {
      assert xs[..n - 1][..k] == xs[..k];
      MapResultsPrefixErr(f, xs[..n - 1], k);
    } else {
      assert xs[..k] == xs;
    }
  }

  /** A run over a concatenation is the run over each part, concatenated. */
  lemma MapResultsSplit<A, B, E>(f: A -> Result<B, E>, a: seq<A>, b: seq<A>)
    requires MapResults(f, a + b).Ok?
    ensures MapResults(f, a).Ok? && MapResults(f, b).Ok?
    ensures MapResults(f, a + b).value == MapResults(f, a).value + MapResults(f, b).value
  {
    var all := MapResults(f, a + b).value;
    forall i | 0 <= i < |a| ensures f(a[i]) == Ok(all[..|a|][i]) {
      assert (a + b)[i] == a[i];
    }
    MapResultsOk(f, a, all[..|a|]);
    forall i | 0 <= i < |b| ensures f(b[i]) == Ok(all[|a|..][i]) {
      assert (a + b)[|a| + i] == b[i];
    }
    MapResultsOk(f, b, all[|a|..]);
    assert all == all[..|a|] + all[|a|..];
  }
}
