/**
 Executions of a state machine, and the induction principle for what they keep.
 */
module Executions {

  /** Each state leads to the next one by the operation between them. */
  ghost predicate Execution<S, O>(states: seq<S>, ops: seq<O>, leads: (S, O, S) -> bool) {
    && |states| == |ops| + 1
    && forall i {:trigger ops[i]} :: 0 <= i < |ops| ==> leads(states[i], ops[i], states[i + 1])
  }

  /** `t` is the end of an execution from `s`. */
  ghost predicate Reaches<S(!new), O(!new)>(s: S, t: S, leads: (S, O, S) -> bool) {
    exists states: seq<S>, ops: seq<O> :: Execution(states, ops, leads) && states[0] == s && states[|ops|] == t
  }

  ghost predicate Keeps<S(!new), O(!new)>(leads: (S, O, S) -> bool, inv: S -> bool) {
    forall s, o, t :: leads(s, o, t) && inv(s) ==> inv(t)
  }

  lemma {:induction false} HoldsAt<S(!new), O(!new)>(states: seq<S>, ops: seq<O>, leads: (S, O, S) -> bool, inv: S -> bool, k: nat)
    requires Execution(states, ops, leads) && Keeps(leads, inv) && inv(states[0]) && k <= |ops|
    ensures inv(states[k])
  {
    if k > 0 {
      HoldsAt(states, ops, leads, inv, k - 1);
      assert leads(states[k - 1], ops[k - 1], states[k]);
    }
  }

  /** What every step keeps holds at the end of every execution. */
  lemma HoldsFromThen<S(!new), O(!new)>(s: S, t: S, leads: (S, O, S) -> bool, inv: S -> bool)
    requires Reaches(s, t, leads) && Keeps(leads, inv) && inv(s)
    ensures inv(t)
  {
    var states: seq<S>, ops: seq<O> :| Execution(states, ops, leads) && states[0] == s && states[|ops|] == t;
    HoldsAt(states, ops, leads, inv, |ops|);
  }

  lemma ReachesSelf<S(!new), O(!new)>(s: S, leads: (S, O, S) -> bool)
    ensures Reaches(s, s, leads)
  {
    assert Execution([s], [], leads);
  }

  lemma ReachesNext<S(!new), O(!new)>(s: S, t: S, o: O, u: S, leads: (S, O, S) -> bool)
    requires Reaches(s, t, leads) && leads(t, o, u)
    ensures Reaches(s, u, leads)
  {
    var states: seq<S>, ops: seq<O> :| Execution(states, ops, leads) && states[0] == s && states[|ops|] == t;
    var longer, more := states + [u], ops + [o];
    assert Execution(longer, more, leads);
    assert longer[0] == s && longer[|more|] == u;
  }

  lemma {:induction false} ReachesPrefix<S(!new), O(!new)>(states: seq<S>, ops: seq<O>, leads: (S, O, S) -> bool, k: nat)
    requires Execution(states, ops, leads) && k <= |ops|
    ensures Reaches(states[0], states[k], leads)
  {
    assert Execution(states[..k + 1], ops[..k], leads);
    assert states[..k + 1][0] == states[0] && states[..k + 1][k] == states[k];
  }
}
