/** Runs of a state machine: any schedule of actions, applied one after another.

    Every protocol of this project is a total function `step(state, action)` in which an action
    that cannot happen leaves the state alone.  A schedule is an arbitrary sequence of actions, so
    a statement about `Exec(step, init, schedule)` for all schedules is a statement about every
    reachable state. */
module Runs {

  function Exec<S, A>(step: (S, A) -> S, s: S, acts: seq<A>): S
    decreases |acts|
  {
    if acts == [] then s
    else step(Exec(step, s, acts[..|acts| - 1]), acts[|acts| - 1])
  }

  lemma ExecOne<S, A>(step: (S, A) -> S, s: S, acts: seq<A>, a: A)
    ensures Exec(step, s, acts + [a]) == step(Exec(step, s, acts), a)
  {
    assert (acts + [a])[..|acts|] == acts;
  }

  lemma {:induction false} ExecConcat<S, A>(step: (S, A) -> S, s: S, xs: seq<A>, ys: seq<A>)
    ensures Exec(step, s, xs + ys) == Exec(step, Exec(step, s, xs), ys)
    decreases |ys|
  {
    if ys == [] {
      assert xs + ys == xs;
    } else {
      var n := |ys| - 1;
      ExecConcat(step, s, xs, ys[..n]);
      assert (xs + ys)[..|xs + ys| - 1] == xs + ys[..n];
    }
  }

  /** An inductive invariant holds after every schedule. */
  lemma {:induction false} InvariantHolds<S(!new), A(!new)>(step: (S, A) -> S, inv: S -> bool, s: S, acts: seq<A>)
    requires inv(s)
    requires forall x: S, a: A :: inv(x) ==> inv(step(x, a))
    ensures inv(Exec(step, s, acts))
    decreases |acts|
  {
    if acts != [] {
      InvariantHolds(step, inv, s, acts[..|acts| - 1]);
    }
  }

  /** Some schedule leads from s to s'. */
  ghost predicate Reaches<S(!new), A(!new)>(step: (S, A) -> S, s: S, s': S) {
    exists acts: seq<A> :: Exec(step, s, acts) == s'
  }

  lemma ReachesSelf<S(!new), A(!new)>(step: (S, A) -> S, s: S)
    ensures Reaches(step, s, s)
  {
    assert Exec(step, s, []) == s;
  }

  lemma ReachesStep<S(!new), A(!new)>(step: (S, A) -> S, s: S, s1: S, a: A)
    requires Reaches(step, s, s1)
    ensures Reaches(step, s, step(s1, a))
  {
    var acts: seq<A> :| Exec(step, s, acts) == s1;
    ExecOne(step, s, acts, a);
  }

  lemma ReachesTrans<S(!new), A(!new)>(step: (S, A) -> S, s: S, s1: S, s2: S)
    requires Reaches(step, s, s1) && Reaches(step, s1, s2)
    ensures Reaches(step, s, s2)
  {
    var xs: seq<A> :| Exec(step, s, xs) == s1;
    var ys: seq<A> :| Exec(step, s1, ys) == s2;
    ExecConcat(step, s, xs, ys);
  }

  lemma ReachesStepFirst<S(!new), A(!new)>(step: (S, A) -> S, s: S, a: A, s2: S)
    requires Reaches(step, step(s, a), s2)
    ensures Reaches(step, s, s2)
  {
    ReachesSelf(step, s);
    ReachesStep(step, s, s, a);
    ReachesTrans(step, s, step(s, a), s2);
  }
}
