/** Runs of a step machine. A machine is a total function from a state and a step to the next
    state; a step that is not enabled leaves the state as it is. A sequence of steps is one
    interleaving of all the callers, so a claim about every sequence is a claim about every
    interleaving, and about a crash between any two steps. */
module Traces {

  function Run<S, L>(next: (S, L) -> S, s: S, steps: seq<L>): S
  {
    if steps == [] then s else next(Run(next, s, steps[..|steps| - 1]), steps[|steps| - 1])
  }

  /** What every step keeps, every run keeps. */
  lemma {:induction false} RunKeeps<S(!new), L(!new)>(next: (S, L) -> S, inv: S -> bool, s: S, steps: seq<L>)
    requires inv(s)
    requires forall t, l :: inv(t) ==> inv(next(t, l))
    ensures inv(Run(next, s, steps))
  {
    if steps != [] {
      RunKeeps(next, inv, s, steps[..|steps| - 1]);
    }
  }

  /** A run in two parts is one run. */
  lemma {:induction false} RunAppend<S, L>(next: (S, L) -> S, s: S, first: seq<L>, second: seq<L>)
    ensures Run(next, s, first + second) == Run(next, Run(next, s, first), second)
  {
    if second == [] {
      assert first + second == first;
    } else {
      var init, last := second[..|second| - 1], second[|second| - 1];
      assert (first + second)[..|first + second| - 1] == first + init;
      RunAppend(next, s, first, init);
    }
  }

  /** A run of one step is that step. */
  lemma RunOne<S, L>(next: (S, L) -> S, s: S, step: L)
    ensures Run(next, s, [step]) == next(s, step)
  {
    assert [step][..0] == [];
  }

  /** A run up to a step, and that step. */
  lemma RunUpTo<S, L>(next: (S, L) -> S, s: S, steps: seq<L>, i: nat)
    requires i < |steps|
    ensures Run(next, s, steps[..i + 1]) == next(Run(next, s, steps[..i]), steps[i])
  {
    assert steps[..i + 1][..i] == steps[..i];
  }

  /** A run goes on with the steps of others and then one of the caller's own. */
  lemma RunExtend<S, L>(next: (S, L) -> S, s: S, t: S, steps: seq<L>, others: seq<L>, u: S, step: L)
    requires t == Run(next, s, steps) && u == Run(next, t, others)
    ensures next(u, step) == Run(next, s, steps + others + [step])
  {
    RunAppend(next, s, steps, others);
    RunOne(next, u, step);
    RunAppend(next, s, steps + others, [step]);
  }

  /** What holds between the two ends of every step, and composes, holds between any two
      points of a run. */
  lemma {:induction false} RunRelates<S(!new), L(!new)>(
      next: (S, L) -> S, inv: S -> bool, rel: (S, S) -> bool, s: S, steps: seq<L>)
    requires inv(s)
    requires forall t, l :: inv(t) ==> inv(next(t, l)) && rel(t, next(t, l))
    requires forall t :: rel(t, t)
    requires forall t, u, v :: rel(t, u) && rel(u, v) ==> rel(t, v)
    ensures inv(Run(next, s, steps)) && rel(s, Run(next, s, steps))
  {
    if steps != [] {
      var before := Run(next, s, steps[..|steps| - 1]);
      RunRelates(next, inv, rel, s, steps[..|steps| - 1]);
      assert rel(before, next(before, steps[|steps| - 1]));
    }
  }
}
