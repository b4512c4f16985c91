/**
 * Both engines walk their input list in order and give up at the first
 * record that raises: `Traverse` is that shape, over any per-record step.
 */
module Batch {
  import opened Wrappers

  /**
   * The step's results for the whole list, in input order, or the error of
   * the first element whose step fails.
   */
  function Traverse<A, B, E>(step: A -> Result<B, E>, xs: seq<A>): (r: Result<seq<B>, E>)
    ensures r.Success? ==> |r.value| == |xs|
    decreases |xs|
  {
    if xs == [] then Success([])
    else
      var done :- Traverse(step, xs[..|xs| - 1]);
      var y :- step(xs[|xs| - 1]);
      Success(done + [y])
  }

  /** The list succeeds iff every element does, and then holds their results, in order. */
  lemma {:induction false} TraverseSucceeds<A, B, E>(step: A -> Result<B, E>, xs: seq<A>)
    ensures Traverse(step, xs).Success? <==> forall i :: 0 <= i < |xs| ==> step(xs[i]).Success?
    ensures Traverse(step, xs).Success? ==>
              forall i :: 0 <= i < |xs| ==> Traverse(step, xs).value[i] == step(xs[i]).value
    decreases |xs|
  {
    if xs != [] {
      var init := xs[..|xs| - 1];
      TraverseSucceeds(step, init);
      assert forall i :: 0 <= i < |init| ==> init[i] == xs[i];
    }
  }

  /** A failing list reports the error of its first failing element. */
  lemma {:induction false} TraverseFailsFirst<A, B, E>(step: A -> Result<B, E>, xs: seq<A>)
    requires Traverse(step, xs).Failure?
    ensures exists k :: 0 <= k < |xs| && step(xs[k]) == Failure(Traverse(step, xs).error)
                        && Traverse(step, xs[..k]).Success?
                        && forall j :: 0 <= j < k ==> step(xs[j]).Success?
    decreases |xs|
  {
    var init := xs[..|xs| - 1];
    assert forall i :: 0 <= i < |init| ==> init[i] == xs[i];
    var k: nat;
    if Traverse(step, init).Failure? {
      TraverseFailsFirst(step, init);
      k :| 0 <= k < |init| && step(init[k]) == Failure(Traverse(step, init).error)
           && Traverse(step, init[..k]).Success?;
      assert init[..k] == xs[..k];
    } else {
      k := |xs| - 1;
      assert xs[..k] == init;
    }
    assert step(xs[k]) == Failure(Traverse(step, xs).error);
    TraverseSucceeds(step, xs[..k]);
    assert forall j :: 0 <= j < k ==> xs[..k][j] == xs[j];
  }

  /** One more successful element extends the results by its own. */
  lemma TraverseSnoc<A, B, E>(step: A -> Result<B, E>, xs: seq<A>, i: nat)
    requires i < |xs| && Traverse(step, xs[..i]).Success? && step(xs[i]).Success?
    ensures Traverse(step, xs[..i + 1]) == Success(Traverse(step, xs[..i]).value + [step(xs[i]).value])
  {
    assert xs[..i + 1][..i] == xs[..i];
  }

  /** Once a prefix succeeds and the next element fails, the whole list fails with its error. */
  lemma {:induction false} TraverseStopsAt<A, B, E>(step: A -> Result<B, E>, xs: seq<A>, i: nat)
    requires i < |xs| && Traverse(step, xs[..i]).Success? && step(xs[i]).Failure?
    ensures Traverse(step, xs) == Failure(step(xs[i]).error)
    decreases |xs|
  {
    assert xs[..i + 1][..i] == xs[..i];
    if i + 1 < |xs| {
      var init := xs[..|xs| - 1];
      assert init[..i] == xs[..i];
      TraverseStopsAt(step, init, i);
    } else {
      assert xs[..i + 1] == xs;
    }
  }
}
