/** What the philosophers of `Dining` are after: whoever is hungry stays so until it eats, and in all the
    programs but the plain one it always can. */
module DiningProgress {
  import opened Dining
  import opened Counting
  import opened Circle
  import opened Runs

  // ----- hungry until eating -----

  /** Trying to get both forks. */
  predicate Hungry(p: Phase) {
    match p case TakeFirst | TakeSecond | TrySecond | GiveBack | Sleep => true case _ => false
  }

  predicate EatsNow(s: State, i: nat) { i < |s.ph| && s.ph[i].phase.Eat? }

  ghost predicate HasEaten(s: State, schedule: seq<nat>, i: nat) {
    exists k :: 0 <= k <= |schedule| && EatsNow(Exec(Step, s, schedule[..k]), i)
  }

  lemma RunKeepsInv(s: State, schedule: seq<nat>)
    requires Inv(s)
    ensures Inv(Exec(Step, s, schedule)) && Same(s, Exec(Step, s, schedule))
  {
    forall x: State, i: nat | Inv(x) && Same(s, x) ensures Inv(Step(x, i)) && Same(s, Step(x, i)) {
      StepKeepsInv(x, i);
    }
    InvariantHolds(Step, (x: State) => Inv(x) && Same(s, x), s, schedule);
  }

  lemma HungryStep(s: State, a: nat, i: nat)
    requires Inv(s) && i < |s.ph| && Hungry(s.ph[i].phase)
    ensures |Step(s, a).ph| == |s.ph| && (Hungry(Step(s, a).ph[i].phase) || EatsNow(Step(s, a), i))
  {
    assert PhaseOk(s.kind, s.ph[i].phase);
  }

  /** A philosopher that has sat down for a meal, one that backed off and sleeps included, is still after its
      forks at the end of every schedule, or has eaten on the way.  It goes nowhere else. */
  lemma {:induction false} HungryUntilEating(s: State, schedule: seq<nat>, i: nat)
    requires Inv(s) && i < |s.ph| && Hungry(s.ph[i].phase)
    ensures |Exec(Step, s, schedule).ph| == |s.ph|
    ensures Hungry(Exec(Step, s, schedule).ph[i].phase) || HasEaten(s, schedule, i)
    decreases |schedule|
  {
    RunKeepsInv(s, schedule);
    if schedule != [] {
      var n := |schedule| - 1;
      var before := schedule[..n];
      HungryUntilEating(s, before, i);
      if HasEaten(s, before, i) {
        var k :| 0 <= k <= n && EatsNow(Exec(Step, s, before[..k]), i);
        assert before[..k] == schedule[..k];
      } else {
        RunKeepsInv(s, before);
        HungryStep(Exec(Step, s, before), schedule[n], i);
        assert schedule[..n + 1] == schedule;
      }
    }
  }

  // ----- who waits for what -----

  /** Whoever has to wait at the semaphore finds n - 1 admitted. */
  lemma EnterWaits(s: State, i: nat)
    requires Inv(s) && i < |s.ph| && s.ph[i].phase.Enter?
    ensures !CanRun(s, i) <==> Count(s.ph, Admitted) == |s.ph| - 1
  {
    assert PhaseOk(s.kind, s.ph[i].phase);
  }

  /** Whoever tries its second fork gives the first one back exactly when the neighbour has the second. */
  lemma GivesBackIff(s: State, i: nat)
    requires Inv(s) && i < |s.ph| && s.ph[i].phase.TrySecond?
    ensures |Step(s, i).ph| == |s.ph|
    ensures Step(s, i).ph[i].phase.GiveBack? <==> HasRight(s.kind, Prev(i, |s.ph|), s.ph[Prev(i, |s.ph|)].phase)
    ensures Step(s, i).ph[i].phase.GiveBack? || Step(s, i).ph[i].phase.Eat?
  {
    assert ForkOk(s, i) && PhaseOk(s.kind, s.ph[i].phase);
  }

  // ----- all forks can be put down -----

  predicate Holds(p: Phase) { HasFirst(p) || HasSecond(p) }

  /** How far a philosopher is from having nothing: no fork, no admission, and reaching for none. */
  function Rank(p: Phase): nat {
    match p
    case TakeFirst => 8
    case TakeSecond | TrySecond => 7
    case Eat => 6
    case Load => 5
    case Store => 4
    case DropFirst => 3
    case DropSecond => 2
    case GiveBack | Leave => 1
    case _ => 0
  }

  function Ranks(s: State): seq<nat> { seq(|s.ph|, i requires 0 <= i < |s.ph| => Rank(s.ph[i].phase)) }

  predicate Idle(s: State) { forall i :: 0 <= i < |s.ph| ==> Rank(s.ph[i].phase) == 0 }

  /** Whoever has a fork and has to wait, waits for one to its left who has a fork. */
  lemma HolderWaits(s: State, i: nat)
    requires Inv(s) && i < |s.ph| && Holds(s.ph[i].phase) && !CanRun(s, i)
    ensures s.ph[i].phase.TakeSecond?
    ensures !Zurdo(s.kind, i) ==> Holds(s.ph[Prev(i, |s.ph|)].phase)
    ensures Zurdo(s.kind, i) ==> CanRun(s, 1) && Holds(s.ph[1].phase)
  {
    assert PhaseOk(s.kind, s.ph[i].phase);
    if Zurdo(s.kind, i) {
      RightIsNext(0, |s.ph|);
      assert ForkOk(s, 1) && PhaseOk(s.kind, s.ph[1].phase);
    } else {
      WaitsForLeft(s, i);
    }
  }

  /** From a holder, down to philosopher 0. */
  lemma {:induction false} FollowDown(s: State, i: nat) returns (j: nat)
    requires Inv(s) && i < |s.ph| && Holds(s.ph[i].phase)
    ensures j <= i && Holds(s.ph[j].phase)
    ensures CanRun(s, j) || (j == 0 && forall k :: 0 <= k <= i ==> Holds(s.ph[k].phase) && !CanRun(s, k))
    decreases i
  {
    j := i;
    if !CanRun(s, i) && i > 0 {
      HolderWaits(s, i);
      j := FollowDown(s, i - 1);
    }
  }

  /** Where somebody has a fork, somebody who has one can go on. */
  lemma SomeHolderMoves(s: State, i: nat) returns (j: nat)
    requires Inv(s) && !s.kind.Plain? && i < |s.ph| && Holds(s.ph[i].phase)
    ensures j < |s.ph| && Holds(s.ph[j].phase) && CanRun(s, j)
  {
    j := FollowDown(s, i);
    if !CanRun(s, j) {
      HolderWaits(s, 0);
      if s.kind.LeftHanded? {
        j := 1;
      } else {
        j := FollowDown(s, |s.ph| - 1);
        if !CanRun(s, j) { NotAllHold(s); }
      }
    }
  }

  /** Not everybody waits with a fork. */
  lemma NotAllHold(s: State)
    requires Inv(s) && (s.kind.Admission? || s.kind.BackOff?)
    ensures exists k :: 0 <= k < |s.ph| && !(Holds(s.ph[k].phase) && !CanRun(s, k))
  {
    if forall k :: 0 <= k < |s.ph| ==> Holds(s.ph[k].phase) && !CanRun(s, k) {
      forall k | 0 <= k < |s.ph| ensures Admitted(s.ph[k]) && PhaseOk(s.kind, TakeSecond) {
        HolderWaits(s, k);
        assert PhaseOk(s.kind, s.ph[k].phase);
      }
      CountBounds(s.ph, Admitted);
      assert PhaseOk(s.kind, s.ph[0].phase) && Admitted(s.ph[0]);
    }
  }

  lemma SomeBusyMoves(s: State) returns (j: nat)
    requires Inv(s) && !s.kind.Plain? && !Idle(s)
    ensures j < |s.ph| && Rank(s.ph[j].phase) > 0 && CanRun(s, j)
  {
    var i: nat :| i < |s.ph| && Rank(s.ph[i].phase) > 0;
    j := i;
    if !CanRun(s, i) {
      if Holds(s.ph[i].phase) {
        j := SomeHolderMoves(s, i);
      } else if Zurdo(s.kind, i) {
        assert ForkOk(s, 0);
        j := SomeHolderMoves(s, |s.ph| - 1);
      } else {
        WaitsForRight(s, i);
        j := SomeHolderMoves(s, Next(i, |s.ph|));
      }
    }
  }

  lemma RankDrops(s: State, i: nat)
    requires Inv(s) && i < |s.ph| && CanRun(s, i) && Rank(s.ph[i].phase) > 0
    ensures |Step(s, i).ph| == |s.ph| && Sum(Ranks(Step(s, i))) < Sum(Ranks(s))
  {
    var s' := Step(s, i);
    assert PhaseOk(s.kind, s.ph[i].phase);
    assert Ranks(s') == Ranks(s)[i := Rank(s'.ph[i].phase)];
    SumUpdate(Ranks(s), i, Rank(s'.ph[i].phase));
  }

  /** In all programs but the plain one everybody can put down what it has. */
  lemma {:induction false} CanSettle(s: State) returns (s': State)
    requires Inv(s) && !s.kind.Plain?
    ensures Reaches<State, nat>(Step, s, s') && Inv(s') && Same(s, s') && Idle(s')
    decreases Sum(Ranks(s))
  {
    ReachesSelf<State, nat>(Step, s);
    s' := s;
    if !Idle(s) {
      var j := SomeBusyMoves(s);
      StepKeepsInv(s, j);
      RankDrops(s, j);
      s' := CanSettle(Step(s, j));
      ReachesStepFirst<State, nat>(Step, s, j, s');
    }
  }

  // ----- then anyone can eat -----

  predicate Others(s: State, i: nat) {
    forall k :: 0 <= k < |s.ph| && k != i ==> Rank(s.ph[k].phase) == 0
  }

  function ToGo(p: Phase): nat {
    match p
    case Think => 4
    case Enter | Test | Sleep => 3
    case TakeFirst => 2
    case TakeSecond | TrySecond => 1
    case _ => 0
  }

  /** Nothing stops a philosopher when the others have nothing. */
  lemma FreeWay(s: State, i: nat)
    requires Inv(s) && i < |s.ph| && Others(s, i) && ToGo(s.ph[i].phase) > 0
    ensures CanRun(s, i) && (s.ph[i].phase.TrySecond? ==> SecondFree(s, i))
  {
    var n := |s.ph|;
    RightIsNext(i, n);
    RightIsNext(Prev(i, n), n);
    assert ForkOk(s, i) && ForkOk(s, Next(i, n)) && PhaseOk(s.kind, s.ph[i].phase);
    if s.ph[i].phase.Enter? {
      forall k | 0 <= k < n ensures !Admitted(s.ph[k]) { assert PhaseOk(s.kind, s.ph[k].phase); }
      CountBounds(s.ph, Admitted);
    }
  }

  /** ... and it goes on to eat, unless it finds the limit reached. */
  lemma {:induction false} GoesToEat(s: State, i: nat) returns (s': State)
    requires Inv(s) && i < |s.ph| && Others(s, i) && (ToGo(s.ph[i].phase) > 0 || s.ph[i].phase in {Eat, Done})
    ensures Reaches<State, nat>(Step, s, s') && |s'.ph| == |s.ph|
    ensures EatsNow(s', i) || (s.kind.BackOff? && s'.ph[i].phase.Done?)
    decreases ToGo(s.ph[i].phase)
  {
    assert PhaseOk(s.kind, s.ph[i].phase);
    if ToGo(s.ph[i].phase) == 0 {
      s' := s;
      ReachesSelf<State, nat>(Step, s);
    } else {
      FreeWay(s, i);
      StepKeepsInv(s, i);
      s' := GoesToEat(Step(s, i), i);
      ReachesStepFirst<State, nat>(Step, s, i, s');
    }
  }

  /** In all programs but the plain one a philosopher that is after its forks can always get to eat, whatever
      has happened so far. */
  lemma HungryCanEat(s: State, i: nat) returns (schedule: seq<nat>)
    requires Inv(s) && !s.kind.Plain? && i < |s.ph| && Hungry(s.ph[i].phase)
    ensures EatsNow(Exec(Step, s, schedule), i)
  {
    var s1 := CanSettle(s);
    assert PhaseOk(s1.kind, s1.ph[i].phase);
    var s2 := GoesToEat(s1, i);
    ReachesTrans<State, nat>(Step, s, s1, s2);
    schedule :| Exec(Step, s, schedule) == s2;
    if !EatsNow(s2, i) {
      HungryUntilEating(s, schedule, i);
      var k :| 0 <= k <= |schedule| && EatsNow(Exec(Step, s, schedule[..k]), i);
      schedule := schedule[..k];
    }
  }

  ghost predicate CanGetToEat(s: State, i: nat) {
    exists schedule: seq<nat> :: EatsNow(Exec(Step, s, schedule), i)
  }

  /** In every run, whoever is after its forks can still get to eat. */
  ghost predicate NobodyStarvesForGood(kind: Kind, n: nat, limit: nat) {
    forall schedule: seq<nat>, i: nat ::
      var s := Exec(Step, Init(kind, n, limit), schedule);
      i < |s.ph| && Hungry(s.ph[i].phase) ==> CanGetToEat(s, i)
  }

  lemma DeadlockLasts(s: State, schedule: seq<nat>)
    requires Deadlocked(s)
    ensures Exec(Step, s, schedule) == s
  {
    InvariantHolds(Step, (x: State) => x == s, s, schedule);
  }

  /** ... which is so in all four programs but the plain one. */
  lemma NobodyStarvesIff(kind: Kind, n: nat, limit: nat)
    requires n >= 2
    ensures NobodyStarvesForGood(kind, n, limit) <==> !kind.Plain?
  {
    var s0 := Init(kind, n, limit);
    if kind.Plain? {
      var schedule := PlainCanDeadlock(n, limit);
      ReachableInv(kind, n, limit, schedule);
      var s := Exec(Step, s0, schedule);
      PlainDeadlock(s);
      assert s.ph[0].phase.TakeSecond?;
      forall rest: seq<nat> ensures !EatsNow(Exec(Step, s, rest), 0) { DeadlockLasts(s, rest); }
      assert !CanGetToEat(s, 0);
    } else {
      forall schedule: seq<nat>, i: nat
        | i < |Exec(Step, s0, schedule).ph| && Hungry(Exec(Step, s0, schedule).ph[i].phase)
        ensures CanGetToEat(Exec(Step, s0, schedule), i)
      {
        ReachableInv(kind, n, limit, schedule);
        var rest := HungryCanEat(Exec(Step, s0, schedule), i);
      }
    }
  }
}
