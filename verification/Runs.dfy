/** Runs of a state machine: its step applied to one event after the other. */
module Runs {

  function RunFrom<S, E>(step: (S, E) -> S, s: S, es: seq<E>): S
    decreases |es|
  {
    if es == [] then s else RunFrom(step, step(s, es[0]), es[1..])
  }

  lemma {:induction false} RunConcat<S, E>(step: (S, E) -> S, s: S, es: seq<E>, fs: seq<E>)
    ensures RunFrom(step, s, es + fs) == RunFrom(step, RunFrom(step, s, es), fs)
    decreases |es|
  {
    if es == [] {
      assert es + fs == fs;
    } else {
      assert (es + fs)[1..] == es[1..] + fs;
      RunConcat(step, step(s, es[0]), es[1..], fs);
    }
  }

  /** What every step keeps, every run keeps. */
  lemma {:induction false} RunKeeps<S(!new), E(!new)>(step: (S, E) -> S, inv: S -> bool, s: S, es: seq<E>)
    requires inv(s) && forall t, e :: inv(t) ==> inv(step(t, e))
    ensures inv(RunFrom(step, s, es))
    decreases |es|
  {
    if es != [] { RunKeeps(step, inv, step(s, es[0]), es[1..]); }
  }

  lemma FirstStep<S, E>(step: (S, E) -> S, s: S, e: E, rest: seq<E>)
    ensures RunFrom(step, s, [e] + rest) == RunFrom(step, step(s, e), rest)
  {
    assert ([e] + rest)[1..] == rest;
  }

  /** A run without its last event, and that event. */
  lemma EndStep<S, E>(step: (S, E) -> S, s: S, es: seq<E>)
    requires es != []
    ensures RunFrom(step, s, es) == step(RunFrom(step, s, es[..|es| - 1]), es[|es| - 1])
  {
    var front, last := es[..|es| - 1], es[|es| - 1];
    assert es == front + [last];
    RunConcat(step, s, front, [last]);
    OneStep(step, RunFrom(step, s, front), last);
  }

  lemma OneStep<S, E>(step: (S, E) -> S, s: S, e: E)
    ensures RunFrom(step, s, [e]) == step(s, e)
  {
    assert [e][1..] == [];
  }

  lemma ThreeSteps<S, E>(step: (S, E) -> S, s: S, e0: E, e1: E, e2: E)
    ensures RunFrom(step, s, [e0, e1, e2]) == step(step(step(s, e0), e1), e2)
  {
    RunConcat(step, s, [e0], [e1, e2]);
    RunConcat(step, step(s, e0), [e1], [e2]);
    OneStep(step, s, e0);
    OneStep(step, step(s, e0), e1);
    OneStep(step, step(step(s, e0), e1), e2);
    assert [e0, e1, e2] == [e0] + [e1, e2] && [e1, e2] == [e1] + [e2];
  }
}
