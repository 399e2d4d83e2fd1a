/** Runs put together from shorter ones. */
module Runs {
  import opened ClaimSystem

  lemma {:induction false} RunConcat(s: State, front: seq<Action>, more: seq<Action>)
    ensures Run(s, front + more) == Run(Run(s, front), more)
  {
    if more == [] {
      assert front + more == front;
    } else {
      assert (front + more)[..|front + more| - 1] == front + more[..|more| - 1];
      RunConcat(s, front, more[..|more| - 1]);
    }
  }

  lemma RunOne(s: State, a: Action)
    ensures Run(s, [a]) == Step(s, a)
  {
    assert [a][..0] == [];
  }

  lemma RunTwo(s: State, a: Action, b: Action)
    ensures Run(s, [a, b]) == Step(Step(s, a), b)
  {
    assert [a, b] == [a] + [b];
    RunConcat(s, [a], [b]);
    RunOne(s, a);
    RunOne(Step(s, a), b);
  }

  /** What can be reached from a reachable state is reachable. */
  lemma ReachesOn(s: State, more: seq<Action>)
    requires Reachable(s)
    ensures Reachable(Run(s, more))
  {
    var limit, actions :| s == Run(Init(limit), actions);
    RunConcat(Init(limit), actions, more);
    assert Run(s, more) == Run(Init(limit), actions + more);
  }
}
