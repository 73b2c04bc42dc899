/** Finite pieces of runs, and what they reach. */
module Paths {
  import opened Protocol

  /** A finite piece of a run. */
  ghost predicate Path(lim: Limits, path: seq<State>) {
    |path| > 0 && forall i: nat :: i + 1 < |path| ==> StepAt(lim, path, i)
  }

  ghost predicate Joins(lim: Limits, path: seq<State>, st: State, st': State) {
    Path(lim, path) && path[0] == st && path[|path| - 1] == st'
  }

  ghost predicate Reaches(lim: Limits, st: State, st': State) {
    exists path :: Joins(lim, path, st, st')
  }

  lemma One(lim: Limits, st: State, a: Action, st': State)
    requires Step(lim, st, a, st')
    ensures Reaches(lim, st, st')
  {
    var path := [st, st'];
    assert Next(lim, st, st');
    assert Joins(lim, path, st, st');
  }

  lemma ReachesOn(lim: Limits, s: State, t: State, u: State)
    requires Reaches(lim, s, t) && Reaches(lim, t, u)
    ensures Reaches(lim, s, u)
  {
    var p :| Joins(lim, p, s, t);
    var q :| Joins(lim, q, t, u);
    var path := p + q[1..];
    forall i: nat | i + 1 < |path|
      ensures StepAt(lim, path, i)
    {
      if i + 1 < |p| {
        assert StepAt(lim, p, i);
      } else {
        assert StepAt(lim, q, i + 1 - |p|);
      }
    }
    assert Joins(lim, path, s, u);
  }
}
