/** Runs of a transition system: what every step keeps holds throughout, and steps that always improve arrive. */
module Traces {

  /** Each move leads from its state to the next. */
  ghost predicate Chained<S(!new), M(!new)>(step: (S, M, S) -> bool, states: seq<S>, moves: seq<M>) {
    && |states| == |moves| + 1
    && forall i :: 0 <= i < |moves| ==> step(states[i], moves[i], states[i + 1])
  }

  lemma {:induction false} Keeps<S(!new), M(!new)>(step: (S, M, S) -> bool, inv: (nat, S) -> bool,
                                                   states: seq<S>, moves: seq<M>, i: nat, j: nat)
    requires Chained(step, states, moves) && i <= j < |states| && inv(i, states[i])
    requires forall k :: i <= k < |moves| && inv(k, states[k]) ==> inv(k + 1, states[k + 1])
    ensures inv(j, states[j])
    decreases j
  {
    if i == j {
    } else {
      Keeps(step, inv, states, moves, i, j - 1);
      var k := j - 1;
      assert inv(k, states[k]);
      assert inv(k + 1, states[k + 1]);
    }
  }

  lemma {:induction false} ChainedCons<S(!new), M(!new)>(step: (S, M, S) -> bool, s: S, v: M, states: seq<S>,
                                                         moves: seq<M>)
    requires Chained(step, states, moves) && step(s, v, states[0])
    ensures Chained(step, [s] + states, [v] + moves)
  {
    var ss, vs := [s] + states, [v] + moves;
    forall i | 0 <= i < |vs|
      ensures step(ss[i], vs[i], ss[i + 1])
    {
      assert i > 0 ==> ss[i] == states[i - 1] && ss[i + 1] == states[i] && vs[i] == moves[i - 1];
    }
  }

  lemma {:induction false} ChainedAppend<S(!new), M(!new)>(step: (S, M, S) -> bool, states: seq<S>, moves: seq<M>, v: M,
                                                           more: seq<S>, rest: seq<M>)
    requires Chained(step, states, moves) && Chained(step, more, rest) && step(states[|moves|], v, more[0])
    ensures Chained(step, states + more, moves + [v] + rest)
  {
    var ss, vs := states + more, moves + [v] + rest;
    forall i | 0 <= i < |vs|
      ensures step(ss[i], vs[i], ss[i + 1])
    {
      if i < |moves| {
        assert ss[i] == states[i] && ss[i + 1] == states[i + 1] && vs[i] == moves[i];
      } else if i == |moves| {
        assert ss[i] == states[i] && ss[i + 1] == more[0] && vs[i] == v;
      } else {
        var j := i - |moves| - 1;
        assert ss[i] == more[j] && ss[i + 1] == more[j + 1] && vs[i] == rest[j];
      }
    }
  }

  /** A step that keeps the invariant and lowers the rank. */
  ghost predicate Improves<S(!new), M(!new)>(step: (S, M, S) -> bool, inv: S -> bool, major: S -> nat, minor: S -> nat,
                                             s: S, v: M, t: S) {
    step(s, v, t) && inv(t) && (major(t) < major(s) || (major(t) == major(s) && minor(t) < minor(s)))
  }

  /** If every state that is not done can improve, some run gets done. */
  lemma {:induction false} Arrives<S(!new), M(!new)>(step: (S, M, S) -> bool, inv: S -> bool, done: S -> bool,
                                                     major: S -> nat, minor: S -> nat, s: S)
    returns (states: seq<S>, moves: seq<M>)
    requires inv(s)
    requires forall x :: inv(x) && !done(x) ==> exists v, y :: Improves(step, inv, major, minor, x, v, y)
    ensures Chained(step, states, moves) && states[0] == s && inv(states[|moves|]) && done(states[|moves|])
    decreases major(s), minor(s)
  {
    if done(s) {
      states, moves := [s], [];
    } else {
      var v, t :| Improves(step, inv, major, minor, s, v, t);
      var more, rest := Arrives(step, inv, done, major, minor, t);
      ChainedCons(step, s, v, more, rest);
      states, moves := [s] + more, [v] + rest;
    }
  }
}
