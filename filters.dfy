/** A filter chain (`Essence\Provider\Filters`): the steps given at
    construction, run in that order on one carrier value, each step seeing
    the previous step's output. A step that throws stops the chain and the
    exception reaches the caller. */
module Filters {
  import opened Essence

  /** One step of a chain: rewrites the carrier, or throws. */
  type Step<!T> = T -> Result<T>

  datatype Filters<!T(!new)> = Filters(steps: seq<Step<T>>) {

    /** `filter($item)`: the carrier after every step, in order; the same
        as applying the last step to what all the steps before it produced. */
    function Filter(x: T): (r: Result<T>)
      ensures r == RunByLast(steps, x)
    {
      RunIsInOrder(steps, x);
      Run(steps, x)
    }
  }

  /** Runs `steps` front to back on `x`, stopping at the first failure.
      An empty chain returns `x`; any exception is one a step threw; a
      success of a non-empty chain is the output of its last step. */
  function Run<T(!new)>(steps: seq<Step<T>>, x: T): (r: Result<T>)
    ensures steps == [] ==> r == Success(x)
    ensures r.Failure? ==> exists i, y :: 0 <= i < |steps| && steps[i](y) == Failure(r.error)
    ensures r.Success? && steps != [] ==> exists y :: Last(steps)(y) == r
    decreases |steps|
  {
    if steps == [] then Success(x)
    else
      match steps[0](x)
      case Failure(e) => Failure(e)
      case Success(y) =>
        var r := Run(steps[1..], y);
        assert forall i :: 0 <= i < |steps| - 1 ==> steps[1..][i] == steps[i + 1];
        if |steps| == 1 then
          assert Last(steps)(x) == Success(y) && r == Success(y);
          r
        else
          assert Last(steps[1..]) == Last(steps);
          r
  }

  /** The last step of a non-empty chain. */
  function Last<T>(steps: seq<Step<T>>): Step<T>
    requires steps != []
  {
    steps[|steps| - 1]
  }

  /** Continues a partial run with the remaining `steps`. */
  function Then<T(!new)>(r: Result<T>, steps: seq<Step<T>>): Result<T> {
    match r
    case Failure(e) => Failure(e)
    case Success(y) => Run(steps, y)
  }

  /** Reference order: the chain's result is the last step applied to the
      result of all the steps before it. */
  function RunByLast<T(!new)>(steps: seq<Step<T>>, x: T): Result<T>
    decreases |steps|
  {
    if steps == [] then Success(x)
    else
      match RunByLast(steps[..|steps| - 1], x)
      case Failure(e) => Failure(e)
      case Success(y) => steps[|steps| - 1](y)
  }

  /** An empty chain is the identity. */
  lemma EmptyChainIsIdentity<T(!new)>(x: T)
    ensures Filters([]).Filter(x) == Success(x)
  {
  }

  /** A chain with one step is that step. */
  lemma SingleStepChain<T(!new)>(s: Step<T>, x: T)
    ensures Run([s], x) == s(x)
  {
    assert [s][1..] == [];
    match s(x)
    case Failure(e) =>
    case Success(y) => assert Run([], y) == Success(y);
  }

  /** Splitting a chain in two: the second part runs on what the first
      part produced, and does not run at all if the first part failed. */
  lemma {:induction false} RunAppend<T(!new)>(a: seq<Step<T>>, b: seq<Step<T>>, x: T)
    ensures Run(a + b, x) == Then(Run(a, x), b)
    decreases |a|
  {
    if a == [] {
      assert a + b == b;
    } else {
      assert (a + b)[0] == a[0];
      assert (a + b)[1..] == a[1..] + b;
      match a[0](x)
      case Failure(e) =>
      case Success(y) => RunAppend(a[1..], b, y);
    }
  }

  /** Running the chain front to back is the same as applying its steps
      one after another from the first to the last. */
  lemma {:induction false} RunIsInOrder<T(!new)>(steps: seq<Step<T>>, x: T)
    ensures Run(steps, x) == RunByLast(steps, x)
    decreases |steps|
  {
    if steps != [] {
      var init, last := steps[..|steps| - 1], steps[|steps| - 1];
      assert steps == init + [last];
      RunAppend(init, [last], x);
      RunIsInOrder(init, x);
      match Run(init, x)
      case Failure(e) =>
      case Success(y) => SingleStepChain(last, y);
    }
  }

  /** A step that throws ends the chain with its exception: the steps
      after it never run. */
  lemma FailingStepStopsChain<T(!new)>(before: seq<Step<T>>, s: Step<T>, after: seq<Step<T>>,
                                 x: T, y: T, e: Exception)
    requires Run(before, x) == Success(y)
    requires s(y) == Failure(e)
    ensures Run(before + [s] + after, x) == Failure(e)
  {
    RunAppend(before + [s], after, x);
    RunAppend(before, [s], x);
    SingleStepChain(s, y);
  }
}
