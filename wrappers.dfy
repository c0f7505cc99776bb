/** Option and the result of evaluating a Python expression that may raise. */
module Wrappers {

  datatype Option<+T> = None | Some(value: T)

  /** Either the value a Python computation produced, or the fact that it raised
      an exception (the model does not distinguish exception classes). */
  datatype Result<+T> = Ok(value: T) | Raised {

    predicate IsFailure() {
      Raised?
    }

    function PropagateFailure<U>(): Result<U>
      requires Raised?
    {
      Raised
    }

    function Extract(): T
      requires Ok?
    {
      value
    }
  }

  /** The outcome of a loop that performs one step per input and stops at the
      first step that raises: the outputs of the steps done, and whether it stopped early. */
  datatype Run<T> = Run(done: seq<T>, raised: bool)

  /** Runs the steps `rs` in order until the first one that raises. */
  function RunUntilRaise<T>(rs: seq<Result<T>>): (r: Run<T>)
    ensures |r.done| <= |rs|
    ensures forall i :: 0 <= i < |r.done| ==> rs[i] == Ok(r.done[i])
    ensures r.raised <==> |r.done| < |rs|
    ensures r.raised ==> rs[|r.done|].Raised?
  {
    if rs == [] then Run([], false)
    else
      var prev := RunUntilRaise(rs[..|rs| - 1]);
      if prev.raised then prev
      else match rs[|rs| - 1]
        case Ok(x) => Run(prev.done + [x], false)
        case Raised => Run(prev.done, true)
  }

  /** Running a longer list of steps extends the run of a shorter prefix that did not raise. */
  lemma {:induction false} RunUntilRaiseSnoc<T>(rs: seq<Result<T>>, x: Result<T>)
    ensures RunUntilRaise(rs + [x]) ==
      (var prev := RunUntilRaise(rs);
       if prev.raised then prev
       else match x
         case Ok(v) => Run(prev.done + [v], false)
         case Raised => Run(prev.done, true))
  {
    assert (rs + [x])[..|rs + [x]| - 1] == rs;
  }

  /** The values of all the steps when none raises; raised otherwise. This is what a
      loop that updates every element of a list in place, and lets an exception
      escape, leaves behind when it completes. */
  function AllOk<T>(rs: seq<Result<T>>): (r: Result<seq<T>>)
    ensures r.Ok? <==> forall k :: 0 <= k < |rs| ==> rs[k].Ok?
    ensures r.Ok? ==> |r.value| == |rs| && forall k :: 0 <= k < |rs| ==> rs[k] == Ok(r.value[k])
  {
    var run := RunUntilRaise(rs);
    if run.raised then Raised else Ok(run.done)
  }

  /** Once a prefix of the steps raises, the later steps are never run. */
  lemma {:induction false} RunUntilRaisePrefix<T>(rs: seq<Result<T>>, n: nat)
    requires n <= |rs| && RunUntilRaise(rs[..n]).raised
    ensures RunUntilRaise(rs) == RunUntilRaise(rs[..n])
  {
    if n < |rs| {
      RunUntilRaisePrefix(rs[..|rs| - 1], n);
      assert rs[..|rs| - 1][..n] == rs[..n];
    } else {
      assert rs[..n] == rs;
    }
  }

  /** One more step of a loop that stops at the first raise: a raising step ends the whole
      run, any other step extends it. */
  lemma RunUntilRaiseStep<T>(rs: seq<Result<T>>, i: nat, done: seq<T>)
    requires i < |rs| && RunUntilRaise(rs[..i]) == Run(done, false)
    ensures rs[i].Raised? ==> RunUntilRaise(rs) == Run(done, true)
    ensures rs[i].Ok? ==> RunUntilRaise(rs[..i + 1]) == Run(done + [rs[i].value], false)
  {
    assert rs[..i + 1] == rs[..i] + [rs[i]];
    RunUntilRaiseSnoc(rs[..i], rs[i]);
    if rs[i].Raised? {
      RunUntilRaisePrefix(rs, i + 1);
    }
  }
}
