/** The one control-flow shape the orchestrator uses everywhere: walk a
    sequence in order, stop at the first error (`?` inside a `for` loop),
    and otherwise collect every result. Compiling files, running build
    steps, copying assets, building every target and building the
    sub-targets of a composite target are all instances. */
module FailFast {
  import opened Wrappers
  import opened Errors

  /** Index of the first element whose action fails, or `|xs|` when none
      does. */
  function FirstFailure<T, R>(xs: seq<T>, f: T -> Result<R, Error>): (k: nat)
    ensures k <= |xs|
    ensures forall i :: 0 <= i < k ==> f(xs[i]).Ok?
    ensures k < |xs| ==> f(xs[k]).Err?
  {
    if |xs| == 0 then 0
    else if f(xs[0]).Err? then 0
    else 1 + FirstFailure(xs[1..], f)
  }

  /** How many elements the loop acts on before it stops: everything up
      to and including the first failure. */
  function Attempted<T, R>(xs: seq<T>, f: T -> Result<R, Error>): (n: nat)
    ensures n <= |xs|
    ensures n == |xs| <==> (forall i :: 0 <= i < |xs| - 1 ==> f(xs[i]).Ok?)
  {
    var k := FirstFailure(xs, f);
    if k < |xs| then k + 1 else |xs|
  }

  /** The loop itself: all results in order, or the first error. */
  function Traverse<T, R>(xs: seq<T>, f: T -> Result<R, Error>): (r: Result<seq<R>, Error>)
    ensures r.Ok? <==> (forall i :: 0 <= i < |xs| ==> f(xs[i]).Ok?)
    ensures r.Ok? ==> |r.value| == |xs|
    ensures r.Ok? ==> forall i :: 0 <= i < |xs| ==> r.value[i] == f(xs[i]).value
    ensures r.Err? ==> FirstFailure(xs, f) < |xs| && r.error == f(xs[FirstFailure(xs, f)]).error
  {
    if |xs| == 0 then Ok([])
    else
      match f(xs[0])
      case Err(e) => Err(e)
      case Ok(v) =>
        match Traverse(xs[1..], f)
        case Err(e) => Err(e)
        case Ok(vs) => Ok([v] + vs)
  }

  /** Whether the loop succeeds does not depend on the order of the
      elements, only on which elements there are. This is what makes the
      unspecified iteration order of a hash map harmless for success. */
  lemma TraverseOrderIrrelevant<T, R>(xs: seq<T>, ys: seq<T>, f: T -> Result<R, Error>)
    requires multiset(xs) == multiset(ys)
    ensures Traverse(xs, f).Ok? <==> Traverse(ys, f).Ok?
  {
    forall i | 0 <= i < |ys|
      ensures ys[i] in multiset(xs)
    {
      assert ys[i] in multiset(ys);
    }
    forall i | 0 <= i < |xs|
      ensures xs[i] in multiset(ys)
    {
      assert xs[i] in multiset(xs);
    }
    if Traverse(xs, f).Ok? {
      forall i | 0 <= i < |ys|
        ensures f(ys[i]).Ok?
      {
        var j :| 0 <= j < |xs| && xs[j] == ys[i];
      }
    }
    if Traverse(ys, f).Ok? {
      forall i | 0 <= i < |xs|
        ensures f(xs[i]).Ok?
      {
        var j :| 0 <= j < |ys| && ys[j] == xs[i];
      }
    }
  }

  /** Appending work after a successful loop: the combined loop fails at
      the first failure of the first part, or else at the first failure of
      the second. */
  lemma {:induction false} TraverseAppend<T, R>(xs: seq<T>, ys: seq<T>, f: T -> Result<R, Error>)
    ensures Traverse(xs + ys, f) ==
      match Traverse(xs, f)
      case Err(e) => Err(e)
      case Ok(a) =>
        match Traverse(ys, f)
        case Err(e) => Err(e)
        case Ok(b) => Ok(a + b)
  {
    if |xs| > 0 {
      assert (xs + ys)[0] == xs[0];
      assert (xs + ys)[1..] == xs[1..] + ys;
      TraverseAppend(xs[1..], ys, f);
      match f(xs[0])
      case Err(_) =>
      case Ok(v) =>
        match Traverse(xs[1..], f)
        case Err(_) =>
        case Ok(a) =>
          match Traverse(ys, f)
          case Err(_) =>
          case Ok(b) => assert [v] + (a + b) == ([v] + a) + b;
    } else {
      assert xs + ys == ys;
      match Traverse(ys, f)
      case Err(_) =>
      case Ok(b) => assert [] + b == b;
    }
  }
}
