/** Two threads that each add 1 to `visitantes` n times without a lock: every increment is a load
    followed by a store, as garden_sleep.c writes out for the `visitantes++` of garden_ingenuo.c. */
module RacingCounter {
  import opened Runs

  /** loaded: between the load into c and the store of c + 1. */
  datatype Racer = Racer(loaded: bool, c: nat, done: nat)

  /** last: who stored last; 2 before the first store. */
  datatype State = State(n: nat, visitantes: nat, th: seq<Racer>, last: nat)

  function Init(n: nat): State { State(n, 0, [Racer(false, 0, 0), Racer(false, 0, 0)], 2) }

  function Step(s: State, t: nat): State {
    if t >= 2 || |s.th| != 2 || s.th[t].done >= s.n then s
    else
      var me := s.th[t];
      if !me.loaded then s.(th := s.th[t := Racer(true, s.visitantes, me.done)])
      else s.(visitantes := me.c + 1, th := s.th[t := Racer(false, 0, me.done + 1)], last := t)
  }

  predicate Complete(s: State) { |s.th| == 2 && s.th[0].done == s.n && s.th[1].done == s.n }

  function Total(s: State): nat
    requires |s.th| == 2
  {
    s.th[0].done + s.th[1].done
  }

  predicate RacerOk(s: State, t: nat)
    requires |s.th| == 2 && t < 2
  {
    var me := s.th[t];
    && me.done <= s.n
    && (me.loaded ==> me.done < s.n && me.c <= Total(s) && (me.done >= 1 ==> me.c >= 1))
    && (s.last == t && me.done >= 2 ==> s.visitantes >= 2)
  }

  predicate Inv(s: State) {
    && |s.th| == 2 && RacerOk(s, 0) && RacerOk(s, 1)
    && s.visitantes <= Total(s)
    && (Total(s) >= 1 ==> s.visitantes >= 1 && s.last < 2)
  }

  lemma StepKeepsInv(s: State, t: nat)
    requires Inv(s)
    ensures Inv(Step(s, t)) && Step(s, t).n == s.n
  {
  }

  lemma ReachableInv(n: nat, schedule: seq<nat>)
    ensures Inv(Exec(Step, Init(n), schedule)) && Exec(Step, Init(n), schedule).n == n
  {
    forall s: State, a: nat | Inv(s) && s.n == n ensures Inv(Step(s, a)) && Step(s, a).n == n {
      StepKeepsInv(s, a);
    }
    InvariantHolds(Step, (s: State) => Inv(s) && s.n == n, Init(n), schedule);
  }

  /** Thread t makes k increments in a row, undisturbed. */
  lemma {:induction false} Alone(s: State, t: nat, k: nat) returns (s': State)
    requires |s.th| == 2 && t < 2 && !s.th[t].loaded && s.th[t].c == 0 && s.th[t].done + k <= s.n
    ensures Reaches<State, nat>(Step, s, s')
    ensures s' == s.(visitantes := s.visitantes + k, th := s.th[t := Racer(false, 0, s.th[t].done + k)],
                     last := if k == 0 then s.last else t)
    decreases k
  {
    if k == 0 {
      s' := s;
      ReachesSelf<State, nat>(Step, s);
    } else {
      var s1 := Alone(s, t, k - 1);
      ReachesStep<State, nat>(Step, s, s1, t);
      ReachesStep<State, nat>(Step, s, Step(s1, t), t);
      s' := Step(Step(s1, t), t);
    }
  }

  /** Thread 0's first increment swallows j of thread 1's, and nothing else is lost. */
  lemma LoseAtTheStart(n: nat, j: nat) returns (s: State)
    requires n >= 1 && j <= n
    ensures Reaches<State, nat>(Step, Init(n), s) && Complete(s) && s.visitantes == 2 * n - j
  {
    var s0 := Init(n);
    ReachesSelf<State, nat>(Step, s0);
    ReachesStep<State, nat>(Step, s0, s0, 0);
    var s1 := Step(s0, 0);
    var s2 := Alone(s1, 1, j);
    ReachesTrans<State, nat>(Step, s0, s1, s2);
    ReachesStep<State, nat>(Step, s0, s2, 0);
    var s3 := Step(s2, 0);
    var s4 := Alone(s3, 0, n - 1);
    ReachesTrans<State, nat>(Step, s0, s3, s4);
    s := Alone(s4, 1, n - j);
    ReachesTrans<State, nat>(Step, s0, s4, s);
  }

  /** The schedule of garden_sleep.c: thread 0's first store swallows all but one increment of thread 1,
      and thread 1's last one swallows all but 1 + m of thread 0. */
  lemma LoseAtBothEnds(n: nat, m: nat) returns (s: State)
    requires n >= 2 && m <= n - 1
    ensures Reaches<State, nat>(Step, Init(n), s) && Complete(s) && s.visitantes == 2 + m
  {
    var s0 := Init(n);
    ReachesSelf<State, nat>(Step, s0);
    ReachesStep<State, nat>(Step, s0, s0, 0);
    var s1 := Step(s0, 0);
    var s2 := Alone(s1, 1, n - 1);
    ReachesTrans<State, nat>(Step, s0, s1, s2);
    ReachesStep<State, nat>(Step, s0, s2, 0);
    var s3 := Step(s2, 0);
    var s4 := Alone(s3, 0, m);
    ReachesTrans<State, nat>(Step, s0, s3, s4);
    ReachesStep<State, nat>(Step, s0, s4, 1);
    var s5 := Step(s4, 1);
    var s6 := Alone(s5, 0, n - 1 - m);
    ReachesTrans<State, nat>(Step, s0, s5, s6);
    ReachesStep<State, nat>(Step, s0, s6, 1);
    s := Step(s6, 1);
  }

  /** Some complete run of two threads with n increments each leaves v. */
  ghost predicate CanEndWith(n: nat, v: nat) {
    exists schedule: seq<nat> ::
      Complete(Exec(Step, Init(n), schedule)) && Exec(Step, Init(n), schedule).visitantes == v
  }

  function Least(n: nat): nat { if n < 2 then n else 2 }

  /** The possible outcomes are exactly 2 .. 2n for n >= 2: however large n is, all but two increments
      can be lost, never more, and every count in between occurs. */
  lemma OutcomesExactly(n: nat, v: nat)
    ensures CanEndWith(n, v) <==> Least(n) <= v <= 2 * n
  {
    if CanEndWith(n, v) {
      var schedule: seq<nat> :| Complete(Exec(Step, Init(n), schedule)) && Exec(Step, Init(n), schedule).visitantes == v;
      ReachableInv(n, schedule);
    }
    if Least(n) <= v <= 2 * n {
      var s;
      if n == 0 {
        s := Init(0);
        ReachesSelf<State, nat>(Step, s);
      } else if v >= n {
        s := LoseAtTheStart(n, 2 * n - v);
      } else {
        s := LoseAtBothEnds(n, v - 2);
      }
      var schedule: seq<nat> :| Exec(Step, Init(n), schedule) == s;
    }
  }

  /** visitantes and the two threads, changed in place. */
  class Program {
    const n: nat
    const th: array<Racer>
    var visitantes: nat
    ghost var last: nat

    ghost predicate Valid()
      reads this
    {
      th.Length == 2
    }

    ghost function View(): State
      reads this, th
    {
      State(n, visitantes, th[..], last)
    }

    constructor (n: nat)
      ensures Valid() && fresh(th) && View() == Init(n)
    {
      this.n := n;
      th := new Racer[2](_ => Racer(false, 0, 0));
      visitantes, last := 0, 2;
    }

    /** c = visitantes; or visitantes = c + 1; whichever thread t has to do next. */
    method Access(t: nat)
      requires Valid() && t < 2
      modifies this, th
      ensures Valid() && View() == Step(old(View()), t)
    {
      var me := th[t];
      if me.done < n {
        if !me.loaded {
          th[t] := Racer(true, visitantes, me.done);
        } else {
          visitantes := me.c + 1;
          th[t] := Racer(false, 0, me.done + 1);
          last := t;
        }
      }
    }

    method Run(schedule: seq<nat>)
      requires Valid() && View() == Init(n) && forall k :: 0 <= k < |schedule| ==> schedule[k] < 2
      modifies this, th
      ensures Valid() && View() == Exec(Step, old(View()), schedule)
      ensures Complete(View()) ==> Least(n) <= visitantes <= 2 * n
    {
      ghost var s0 := View();
      for k := 0 to |schedule|
        invariant Valid() && View() == Exec(Step, s0, schedule[..k])
      {
        ExecOne(Step, s0, schedule[..k], schedule[k]);
        assert schedule[..k + 1] == schedule[..k] + [schedule[k]];
        Access(schedule[k]);
      }
      assert schedule[..|schedule|] == schedule;
      ReachableInv(n, schedule);
    }
  }
}
