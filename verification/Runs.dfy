// Paths of a step relation, for putting explicit runs together from short pieces.
module Runs {
  ghost predicate Path<S(!new), A(!new)>(next: (S, A, S) -> bool, states: seq<S>, steps: seq<A>) {
    |states| == |steps| + 1 && forall k :: 0 <= k < |steps| ==> next(states[k], steps[k], states[k + 1])
  }

  lemma Joined<S(!new), A(!new)>(next: (S, A, S) -> bool, a: seq<S>, x: seq<A>, b: seq<S>, y: seq<A>)
    returns (states: seq<S>, steps: seq<A>)
    requires Path(next, a, x) && Path(next, b, y) && a[|x|] == b[0]
    ensures Path(next, states, steps) && states[0] == a[0] && states[|steps|] == b[|y|] && steps == x + y
  {
    states, steps := a[..|x|] + b, x + y;
    forall k | 0 <= k < |steps|
      ensures next(states[k], steps[k], states[k + 1])
    {
      if k < |x| {
        assert next(a[k], x[k], a[k + 1]);
      } else {
        assert next(b[k - |x|], y[k - |x|], b[k - |x| + 1]);
      }
    }
  }
}
