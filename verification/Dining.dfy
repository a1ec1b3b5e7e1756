/** The four dining philosophers of Practica-3/eje-2, for any number n of them.

    Philosopher i has fork i on its left and fork (i + 1) % n on its right.  Each step is one mutex or
    semaphore operation, or one access to the meal counter. */
module Dining {
  import opened Runs
  import opened Counting
  import opened Circle

  datatype Kind =
    | Plain         // right fork, then left
    | Admission     // the same behind a semaphore that starts at n - 1
    | LeftHanded    // philosopher 0 takes the left fork first
    | BackOff       // gives the right fork back when the left one is taken; stops after `limit` meals

  datatype Phase =
    | Test          // while (cant_comidas < limit)
    | Enter         // sem_wait
    | TakeFirst     // pthread_mutex_lock of the first fork
    | TakeSecond    // pthread_mutex_lock of the second fork
    | TrySecond     // pthread_mutex_trylock of the second fork
    | GiveBack      // pthread_mutex_unlock of the first fork
    | Sleep
    | Eat
    | Load          // cant_comidas++ reads
    | Store         // and writes
    | DropFirst
    | DropSecond
    | Leave         // sem_post
    | Think
    | Done

  datatype Philosopher = Philosopher(phase: Phase, c: nat)

  datatype State = State(kind: Kind, limit: nat, taken: seq<bool>, admission: nat, meals: nat, ph: seq<Philosopher>)

  function Start(kind: Kind): Phase {
    match kind case Admission => Enter case BackOff => Test case _ => TakeFirst
  }

  function Init(kind: Kind, n: nat, limit: nat): State {
    State(kind, limit, seq(n, _ => false), if n > 0 then n - 1 else 0, 0, seq(n, _ => Philosopher(Start(kind), 0)))
  }

  function Left(i: nat, n: nat): nat { i }

  function Right(i: nat, n: nat): nat
    requires n > 0
  {
    (i + 1) % n
  }

  predicate Zurdo(kind: Kind, i: nat) { kind.LeftHanded? && i == 0 }

  function First(kind: Kind, i: nat, n: nat): nat
    requires n > 0
  {
    if Zurdo(kind, i) then Left(i, n) else Right(i, n)
  }

  function Second(kind: Kind, i: nat, n: nat): nat
    requires n > 0
  {
    if Zurdo(kind, i) then Right(i, n) else Left(i, n)
  }

  predicate Shaped(s: State) { |s.taken| == |s.ph| }

  predicate FirstFree(s: State, i: nat)
    requires Shaped(s) && i < |s.ph|
  {
    var f := First(s.kind, i, |s.ph|);
    f < |s.taken| && !s.taken[f]
  }

  predicate SecondFree(s: State, i: nat)
    requires Shaped(s) && i < |s.ph|
  {
    var f := Second(s.kind, i, |s.ph|);
    f < |s.taken| && !s.taken[f]
  }

  /** Can philosopher i take its next step now?  A trylock never waits. */
  predicate CanRun(s: State, i: nat)
    requires Shaped(s) && i < |s.ph|
  {
    match s.ph[i].phase
    case Enter => s.admission > 0
    case TakeFirst => FirstFree(s, i)
    case TakeSecond => SecondFree(s, i)
    case Done => false
    case _ => true
  }

  function NextPhase(s: State, i: nat): Phase
    requires Shaped(s) && i < |s.ph|
  {
    match s.ph[i].phase
    case Test => if s.meals < s.limit then TakeFirst else Done
    case Enter => TakeFirst
    case TakeFirst => if s.kind.BackOff? then TrySecond else TakeSecond
    case TakeSecond => Eat
    case TrySecond => if SecondFree(s, i) then Eat else GiveBack
    case GiveBack => Sleep
    case Sleep => TakeFirst
    case Eat => if s.kind.BackOff? then Load else DropFirst
    case Load => Store
    case Store => DropFirst
    case DropFirst => DropSecond
    case DropSecond => if s.kind.Admission? then Leave else Think
    case Leave => Think
    case Think => Start(s.kind)
    case Done => Done
  }

  function Set(taken: seq<bool>, f: nat, b: bool): seq<bool> { if f < |taken| then taken[f := b] else taken }

  function TakenAfter(s: State, i: nat): seq<bool>
    requires Shaped(s) && i < |s.ph|
  {
    var first, second := First(s.kind, i, |s.ph|), Second(s.kind, i, |s.ph|);
    match s.ph[i].phase
    case TakeFirst => Set(s.taken, first, true)
    case TakeSecond => Set(s.taken, second, true)
    case TrySecond => if SecondFree(s, i) then Set(s.taken, second, true) else s.taken
    case GiveBack => Set(s.taken, first, false)
    case DropFirst => Set(s.taken, first, false)
    case DropSecond => Set(s.taken, second, false)
    case _ => s.taken
  }

  function Step(s: State, i: nat): State {
    if !Shaped(s) || i >= |s.ph| || !CanRun(s, i) then s
    else
      var me := s.ph[i];
      s.(taken := TakenAfter(s, i),
         admission := if me.phase.Enter? then s.admission - 1
                      else if me.phase.Leave? then s.admission + 1 else s.admission,
         meals := if me.phase.Store? then me.c + 1 else s.meals,
         ph := s.ph[i := Philosopher(NextPhase(s, i), if me.phase.Load? then s.meals else me.c)])
  }

  // ----- who holds which fork -----

  predicate HasFirst(p: Phase) {
    match p case TakeSecond | TrySecond | GiveBack | Eat | Load | Store | DropFirst => true case _ => false
  }

  predicate HasSecond(p: Phase) {
    match p case Eat | Load | Store | DropFirst | DropSecond => true case _ => false
  }

  /** Has both forks. */
  predicate Eating(p: Phase) {
    match p case Eat | Load | Store | DropFirst => true case _ => false
  }

  predicate HasLeft(kind: Kind, i: nat, p: Phase) { if Zurdo(kind, i) then HasFirst(p) else HasSecond(p) }

  predicate HasRight(kind: Kind, i: nat, p: Phase) { if Zurdo(kind, i) then HasSecond(p) else HasFirst(p) }

  predicate Admitted(p: Philosopher) { !(p.phase.Enter? || p.phase.Think?) }

  predicate Entering(p: Philosopher) { p.phase.Enter? }

  predicate PhaseOk(kind: Kind, p: Phase) {
    match p
    case Enter | Leave => kind.Admission?
    case Test | TrySecond | GiveBack | Sleep | Load | Store | Done => kind.BackOff?
    case TakeSecond => !kind.BackOff?
    case _ => true
  }

  /** A fork is taken exactly when one of its two neighbours has it. */
  predicate ForkOk(s: State, f: nat)
    requires Shaped(s) && f < |s.ph|
  {
    var p := Prev(f, |s.ph|);
    B(HasLeft(s.kind, f, s.ph[f].phase)) + B(HasRight(s.kind, p, s.ph[p].phase)) == B(s.taken[f])
  }

  ghost predicate Inv(s: State) {
    && Shaped(s) && |s.ph| >= 2
    && (forall f :: 0 <= f < |s.ph| ==> ForkOk(s, f))
    && (forall i :: 0 <= i < |s.ph| ==> PhaseOk(s.kind, s.ph[i].phase))
    && (s.kind.Admission? ==> s.admission + Count(s.ph, Admitted) == |s.ph| - 1)
  }

  lemma RightIsNext(i: nat, n: nat)
    requires i < n && n >= 2
    ensures Right(i, n) == Next(i, n) && Next(i, n) != i && Prev(Next(i, n), n) == i && Next(Prev(i, n), n) == i
  {
    assert i + 1 < n ==> (i + 1) % n == i + 1;
  }

  lemma StepKeepsFork(s: State, i: nat, f: nat)
    requires Inv(s) && i < |s.ph| && CanRun(s, i) && f < |s.ph|
    ensures ForkOk(Step(s, i), f)
  {
    var n := |s.ph|;
    RightIsNext(i, n);
    assert ForkOk(s, f) && ForkOk(s, i) && ForkOk(s, Next(i, n)) && PhaseOk(s.kind, s.ph[i].phase);
    var s' := Step(s, i);
    assert Prev(f, n) == i ==> f == Next(i, n) by { RightIsNext(f, n); }
    if f != i && f != Next(i, n) {
      assert s'.taken[f] == s.taken[f];
    }
  }

  lemma StepKeepsInv(s: State, i: nat)
    requires Inv(s)
    ensures Inv(Step(s, i)) && |Step(s, i).ph| == |s.ph| && Step(s, i).kind == s.kind && Step(s, i).limit == s.limit
  {
    if i < |s.ph| && CanRun(s, i) {
      var s' := Step(s, i);
      forall f | 0 <= f < |s.ph| ensures ForkOk(s', f) { StepKeepsFork(s, i, f); }
      assert PhaseOk(s.kind, s.ph[i].phase);
      CountUpdate(s.ph, i, s'.ph[i], Admitted);
    }
  }

  predicate Same(s: State, s': State) { |s'.ph| == |s.ph| && s'.kind == s.kind && s'.limit == s.limit }

  lemma ReachableInv(kind: Kind, n: nat, limit: nat, schedule: seq<nat>)
    requires n >= 2
    ensures var s := Exec(Step, Init(kind, n, limit), schedule);
            Inv(s) && |s.ph| == n && s.kind == kind && s.limit == limit
  {
    var s0 := Init(kind, n, limit);
    CountBounds(s0.ph, Admitted);
    forall s: State, i: nat | Inv(s) && Same(s0, s) ensures Inv(Step(s, i)) && Same(s0, Step(s, i)) {
      StepKeepsInv(s, i);
    }
    InvariantHolds(Step, (s: State) => Inv(s) && Same(s0, s), s0, schedule);
  }

  // ----- neighbours never eat together -----

  lemma NeighboursExclude(kind: Kind, n: nat, limit: nat, schedule: seq<nat>, i: nat)
    requires n >= 2 && i < n
    ensures var s := Exec(Step, Init(kind, n, limit), schedule);
            |s.ph| == n && !(Eating(s.ph[i].phase) && Eating(s.ph[Next(i, n)].phase))
  {
    ReachableInv(kind, n, limit, schedule);
    var s := Exec(Step, Init(kind, n, limit), schedule);
    RightIsNext(i, n);
    assert ForkOk(s, Next(i, n));
  }

  // ----- deadlock -----

  /** Somebody has not finished and nobody can take a step. */
  ghost predicate Deadlocked(s: State) {
    && Shaped(s)
    && (exists i :: 0 <= i < |s.ph| && s.ph[i].phase != Done)
    && (forall i :: 0 <= i < |s.ph| ==> !CanRun(s, i))
  }

  predicate AllHoldOne(s: State) { forall i :: 0 <= i < |s.ph| ==> s.ph[i].phase.TakeSecond? }

  /** Whoever waits for a right fork waits for a neighbour that has it as its left one. */
  lemma WaitsForRight(s: State, i: nat)
    requires Inv(s) && i < |s.ph| && !CanRun(s, i) && !Zurdo(s.kind, i) && s.ph[i].phase.TakeFirst?
    ensures HasLeft(s.kind, Next(i, |s.ph|), s.ph[Next(i, |s.ph|)].phase)
  {
    RightIsNext(i, |s.ph|);
    assert ForkOk(s, Next(i, |s.ph|));
  }

  /** Whoever waits for a left fork waits for the neighbour that has it as its right one. */
  lemma WaitsForLeft(s: State, i: nat)
    requires Inv(s) && i < |s.ph| && !CanRun(s, i) && !Zurdo(s.kind, i) && s.ph[i].phase.TakeSecond?
    ensures HasRight(s.kind, Prev(i, |s.ph|), s.ph[Prev(i, |s.ph|)].phase)
  {
    assert ForkOk(s, i);
  }

  /** The plain version is deadlocked exactly when every philosopher has its right fork and waits for
      its left one. */
  lemma PlainDeadlock(s: State)
    requires Inv(s) && s.kind.Plain?
    ensures Deadlocked(s) <==> AllHoldOne(s)
  {
    if Deadlocked(s) {
      forall i | 0 <= i < |s.ph| ensures s.ph[i].phase.TakeSecond? {
        assert !CanRun(s, i) && !CanRun(s, Next(i, |s.ph|)) && PhaseOk(s.kind, s.ph[i].phase);
        if s.ph[i].phase.TakeFirst? {
          WaitsForRight(s, i);
        }
      }
    }
    if AllHoldOne(s) {
      forall i | 0 <= i < |s.ph| ensures !CanRun(s, i) {
        assert ForkOk(s, i);
      }
      assert s.ph[0].phase != Done;
    }
  }

  /** ... and that state is reached when each takes its right fork in turn. */
  lemma {:induction false} TakeInTurn(n: nat, limit: nat, k: nat) returns (s: State)
    requires n >= 2 && k <= n
    ensures Reaches<State, nat>(Step, Init(Plain, n, limit), s) && Inv(s) && s.kind.Plain? && |s.ph| == n
    ensures forall i :: 0 <= i < n ==> s.ph[i].phase == if i < k then TakeSecond else TakeFirst
    decreases k
  {
    if k == 0 {
      s := Init(Plain, n, limit);
      ReachesSelf<State, nat>(Step, s);
      ReachableInv(Plain, n, limit, []);
    } else {
      var s1 := TakeInTurn(n, limit, k - 1);
      RightIsNext(k - 1, n);
      assert ForkOk(s1, Next(k - 1, n));
      StepKeepsInv(s1, k - 1);
      ReachesStep<State, nat>(Step, Init(Plain, n, limit), s1, k - 1);
      s := Step(s1, k - 1);
    }
  }

  lemma PlainCanDeadlock(n: nat, limit: nat) returns (schedule: seq<nat>)
    requires n >= 2
    ensures Deadlocked(Exec(Step, Init(Plain, n, limit), schedule))
  {
    var s := TakeInTurn(n, limit, n);
    schedule :| Exec(Step, Init(Plain, n, limit), schedule) == s;
    PlainDeadlock(s);
  }

  /** With n - 1 admitted there is no deadlock: two would have to be outside. */
  lemma AdmissionNeverDeadlocks(s: State)
    requires Inv(s) && s.kind.Admission?
    ensures !Deadlocked(s)
  {
    if Deadlocked(s) {
      var n := |s.ph|;
      forall i | 0 <= i < n ensures s.ph[i].phase.TakeSecond? || s.ph[i].phase.Enter? {
        assert !CanRun(s, i) && !CanRun(s, Next(i, n)) && PhaseOk(s.kind, s.ph[i].phase);
        if s.ph[i].phase.TakeFirst? {
          WaitsForRight(s, i);
        }
      }
      if b: nat :| b < n && s.ph[b].phase.Enter? {
        var c := Next(b, n);
        RightIsNext(b, n);
        assert !CanRun(s, b) && !CanRun(s, c);
        if s.ph[c].phase.TakeSecond? {
          WaitsForLeft(s, c);
          assert false;
        }
        CountTwo(s.ph, Entering, b, c);
        CountWithin(s.ph, Entering, Admitted, (p: Philosopher) => true);
        CountBounds(s.ph, (p: Philosopher) => true);
      } else {
        CountBounds(s.ph, Admitted);
      }
    }
  }

  /** From a philosopher that has its right fork, follow the left forks down to one that can go on. */
  lemma {:induction false} FollowLeftForks(s: State, i: nat) returns (j: nat)
    requires Inv(s) && s.kind.LeftHanded? && 1 <= i < |s.ph| && s.ph[i].phase.TakeSecond?
    ensures j < |s.ph| && CanRun(s, j)
    decreases i
  {
    if CanRun(s, i) {
      j := i;
    } else {
      WaitsForLeft(s, i);
      if i > 1 && s.ph[i - 1].phase.TakeSecond? {
        j := FollowLeftForks(s, i - 1);
      } else {
        j := i - 1;
        assert PhaseOk(s.kind, s.ph[j].phase);
      }
    }
  }

  /** One left-handed philosopher breaks the circle. */
  lemma LeftHandedNeverDeadlocks(s: State) returns (j: nat)
    requires Inv(s) && s.kind.LeftHanded?
    ensures j < |s.ph| && CanRun(s, j)
  {
    var last: nat := |s.ph| - 1;
    RightIsNext(0, |s.ph|);
    assert ForkOk(s, 0) && ForkOk(s, 1);
    assert PhaseOk(s.kind, s.ph[0].phase) && PhaseOk(s.kind, s.ph[1].phase) && PhaseOk(s.kind, s.ph[last].phase);
    if CanRun(s, 0) {
      j := 0;
    } else if s.ph[0].phase.TakeSecond? {
      j := 1;
    } else if s.ph[last].phase.TakeSecond? {
      j := FollowLeftForks(s, last);
    } else {
      j := last;
    }
  }

  /** With the back-off a philosopher that has to wait for a fork waits for one who is eating or is
      putting its forks down, and who can therefore take a step. */
  lemma BackOffWaitsForEater(s: State, i: nat)
    requires Inv(s) && s.kind.BackOff? && i < |s.ph| && s.ph[i].phase != Done && !CanRun(s, i)
    ensures s.ph[i].phase.TakeFirst?
    ensures var j := Next(i, |s.ph|); HasSecond(s.ph[j].phase) && CanRun(s, j)
  {
    assert PhaseOk(s.kind, s.ph[i].phase);
    WaitsForRight(s, i);
  }

  lemma BackOffNeverDeadlocks(s: State)
    requires Inv(s) && s.kind.BackOff?
    ensures !Deadlocked(s)
  {
    if Deadlocked(s) {
      var i :| 0 <= i < |s.ph| && s.ph[i].phase != Done;
      BackOffWaitsForEater(s, i);
      assert false;
    }
  }

  ghost predicate CanDeadlock(kind: Kind, n: nat, limit: nat) {
    exists schedule: seq<nat> :: Deadlocked(Exec(Step, Init(kind, n, limit), schedule))
  }

  /** Which of the four programs has a run that ends in deadlock. */
  lemma DeadlockIff(kind: Kind, n: nat, limit: nat)
    requires n >= 2
    ensures CanDeadlock(kind, n, limit) <==> kind.Plain?
  {
    if kind.Plain? {
      var schedule := PlainCanDeadlock(n, limit);
      assert Deadlocked(Exec(Step, Init(Plain, n, limit), schedule));
    } else {
      forall schedule: seq<nat> ensures !Deadlocked(Exec(Step, Init(kind, n, limit), schedule)) {
        ReachableInv(kind, n, limit, schedule);
        var s := Exec(Step, Init(kind, n, limit), schedule);
        match kind
        case Admission => AdmissionNeverDeadlocks(s);
        case LeftHanded => var j := LeftHandedNeverDeadlocks(s);
        case BackOff => BackOffNeverDeadlocks(s);
      }
    }
  }

  // ----- the meal counter of the back-off version -----

  /** Has passed the loop test and not counted its meal yet. */
  predicate Due(p: Philosopher) {
    match p.phase
    case TakeFirst | TakeSecond | TrySecond | GiveBack | Sleep | Eat | Load | Store => true
    case _ => false
  }

  ghost predicate MealsOk(s: State) {
    && |s.ph| == 2 && s.kind.BackOff?
    && s.meals + B(Due(s.ph[0])) + B(Due(s.ph[1])) <= s.limit + 1
    && (forall i :: 0 <= i < 2 && s.ph[i].phase.Store? ==> s.ph[i].c == s.meals)
    && (forall i :: 0 <= i < 2 && s.ph[i].phase.Done? ==> s.meals >= s.limit)
  }

  lemma StepKeepsMeals(s: State, i: nat)
    requires Inv(s) && MealsOk(s)
    ensures MealsOk(Step(s, i)) && s.meals <= Step(s, i).meals
  {
    if i < 2 && CanRun(s, i) {
      assert ForkOk(s, 0) && ForkOk(s, 1);
      assert PhaseOk(s.kind, s.ph[i].phase);
    }
  }

  lemma ReachableMeals(limit: nat, schedule: seq<nat>)
    ensures MealsOk(Exec(Step, Init(BackOff, 2, limit), schedule))
  {
    var s0 := Init(BackOff, 2, limit);
    ReachableInv(BackOff, 2, limit, []);
    forall s: State, i: nat | Inv(s) && MealsOk(s) ensures Inv(Step(s, i)) && MealsOk(Step(s, i)) {
      StepKeepsInv(s, i);
      StepKeepsMeals(s, i);
    }
    InvariantHolds(Step, (s: State) => Inv(s) && MealsOk(s), s0, schedule);
  }

  predicate AllDone(s: State) { forall i :: 0 <= i < |s.ph| ==> s.ph[i].phase.Done? }

  /** Two philosophers stop after `limit` or `limit + 1` meals: the forks make the unprotected
      `cant_comidas++` exclusive. */
  lemma MealsAtTheEnd(limit: nat, schedule: seq<nat>)
    requires AllDone(Exec(Step, Init(BackOff, 2, limit), schedule))
    ensures limit <= Exec(Step, Init(BackOff, 2, limit), schedule).meals <= limit + 1
  {
    ReachableMeals(limit, schedule);
    var s := Exec(Step, Init(BackOff, 2, limit), schedule);
    ReachableInv(BackOff, 2, limit, schedule);
    assert s.ph[0].phase.Done? && s.ph[1].phase.Done?;
  }

  /** Where philosopher i of two is after k of the eight steps of a meal taken without interference. */
  function MealStep(s: State, i: nat, k: nat): State
    requires i < 2 && |s.ph| == 2 && k <= 8
  {
    var me := s.ph[i];
    var c := if k < 4 then me.c else s.meals;
    var phase := match k
      case 0 => TakeFirst case 1 => TrySecond case 2 => Eat case 3 => Load case 4 => Store
      case 5 => DropFirst case 6 => DropSecond case 7 => Think case _ => Test;
    var first, second := 1 <= k <= 5, 2 <= k <= 6;
    s.(taken := if i == 0 then [second, first] else [first, second],
       meals := if k < 5 then s.meals else s.meals + 1,
       ph := s.ph[i := Philosopher(phase, c)])
  }

  lemma MealStepIsStep(s: State, i: nat, k: nat)
    requires i < 2 && |s.ph| == 2 && s.kind.BackOff? && k < 8
    ensures Step(MealStep(s, i, k), i) == MealStep(s, i, k + 1)
  {
    assert First(BackOff, i, 2) == 1 - i && Second(BackOff, i, 2) == i;
    var t, t' := MealStep(s, i, k), MealStep(s, i, k + 1);
    assert TakenAfter(t, i) == t'.taken;
    assert Step(t, i).ph == t'.ph;
  }

  /** Philosopher i of two eats once while the other holds nothing. */
  lemma OneMeal(s: State, i: nat) returns (s': State)
    requires i < 2 && |s.ph| == 2 && s.kind.BackOff? && s.taken == [false, false]
    requires s.ph[i].phase.TakeFirst?
    ensures Reaches<State, nat>(Step, s, s') && |s'.ph| == 2
    ensures s'.ph[i].phase.Test? && s' == s.(meals := s.meals + 1, ph := s.ph[i := s'.ph[i]])
  {
    ReachesSelf<State, nat>(Step, s);
    assert MealStep(s, i, 0) == s;
    for k := 0 to 8
      invariant Reaches<State, nat>(Step, s, MealStep(s, i, k))
    {
      ReachesStep<State, nat>(Step, s, MealStep(s, i, k), i);
      MealStepIsStep(s, i, k);
    }
    s' := MealStep(s, i, 8);
  }

  /** Philosopher 0 eats alone until the limit is reached, and stops. */
  lemma {:induction false} MealsAlone(s: State) returns (s': State)
    requires |s.ph| == 2 && s.kind.BackOff? && s.taken == [false, false] && s.meals <= s.limit
    requires s.ph[0].phase.Test?
    ensures Reaches<State, nat>(Step, s, s') && |s'.ph| == 2
    ensures s'.ph[0].phase.Done? && s' == s.(meals := s.limit, ph := s.ph[0 := s'.ph[0]])
    decreases s.limit - s.meals
  {
    ReachesSelf<State, nat>(Step, s);
    ReachesStep<State, nat>(Step, s, s, 0);
    s' := Step(s, 0);
    if s.meals < s.limit {
      var s1 := s';
      var s2 := OneMeal(s1, 0);
      ReachesTrans<State, nat>(Step, s, s1, s2);
      s' := MealsAlone(s2);
      ReachesTrans<State, nat>(Step, s, s2, s');
    }
  }

  /** Both outcomes happen: `limit + 1` when philosopher 1 passes the loop test early and eats last. */
  lemma BothMealCounts(limit: nat, extra: bool) returns (schedule: seq<nat>)
    requires limit >= 1
    ensures var s := Exec(Step, Init(BackOff, 2, limit), schedule);
            AllDone(s) && s.meals == limit + if extra then 1 else 0
  {
    var s0 := Init(BackOff, 2, limit);
    var s := s0;
    assert s0.taken == [false, false];
    ReachesSelf<State, nat>(Step, s0);
    if extra {
      ReachesStep<State, nat>(Step, s0, s, 1);
      s := Step(s, 1);
    }
    var s1 := MealsAlone(s);
    ReachesTrans<State, nat>(Step, s0, s, s1);
    s := s1;
    if extra {
      s := OneMeal(s1, 1);
      ReachesTrans<State, nat>(Step, s0, s1, s);
    }
    ReachesStep<State, nat>(Step, s0, s, 1);
    s := Step(s, 1);
    schedule :| Exec(Step, s0, schedule) == s;
  }

  // ----- the program itself -----

  /** The fork mutexes, the semaphore and the counter, changed in place. */
  class Program {
    const kind: Kind
    const limit: nat
    const taken: array<bool>
    const ph: array<Philosopher>
    var admission: nat
    var meals: nat

    ghost predicate Valid()
      reads this
    {
      taken.Length == ph.Length >= 2
    }

    ghost function View(): State
      reads this, taken, ph
    {
      State(kind, limit, taken[..], admission, meals, ph[..])
    }

    constructor (kind: Kind, n: nat, limit: nat)
      requires n >= 2
      ensures Valid() && fresh(taken) && fresh(ph) && View() == Init(kind, n, limit)
    {
      this.kind, this.limit := kind, limit;
      taken := new bool[n](_ => false);
      ph := new Philosopher[n](_ => Philosopher(Start(kind), 0));
      admission, meals := n - 1, 0;
    }

    /** tomar_tenedores and its variants. */
    method TakeForks(i: nat)
      requires Valid() && i < ph.Length
      requires match ph[i].phase case TakeFirst | TakeSecond | TrySecond | GiveBack | Sleep => true case _ => false
      modifies taken, ph
      ensures View() == Step(old(View()), i)
    {
      RightIsNext(i, ph.Length);
      var me := ph[i];
      var first, second := First(kind, i, ph.Length), Second(kind, i, ph.Length);
      match me.phase {
        case TakeFirst =>
          if !taken[first] {
            taken[first] := true;
            ph[i] := me.(phase := if kind.BackOff? then TrySecond else TakeSecond);
          }
        case TakeSecond =>
          if !taken[second] {
            taken[second] := true;
            ph[i] := me.(phase := Eat);
          }
        case TrySecond =>
          if !taken[second] {
            taken[second] := true;
            ph[i] := me.(phase := Eat);
          } else {
            ph[i] := me.(phase := GiveBack);
          }
        case GiveBack =>
          taken[first] := false;
          ph[i] := me.(phase := Sleep);
        case Sleep =>
          ph[i] := me.(phase := TakeFirst);
      }
    }

    /** comer, cant_comidas++ and dejar_tenedores. */
    method EatAndDrop(i: nat)
      requires Valid() && i < ph.Length
      requires match ph[i].phase case Eat | Load | Store | DropFirst | DropSecond => true case _ => false
      modifies this`meals, taken, ph
      ensures View() == Step(old(View()), i)
    {
      RightIsNext(i, ph.Length);
      var me := ph[i];
      match me.phase {
        case Eat => ph[i] := me.(phase := if kind.BackOff? then Load else DropFirst);
        case Load => ph[i] := me.(phase := Store, c := meals);
        case Store => meals := me.c + 1; ph[i] := me.(phase := DropFirst);
        case DropFirst =>
          taken[First(kind, i, ph.Length)] := false;
          ph[i] := me.(phase := DropSecond);
        case DropSecond =>
          taken[Second(kind, i, ph.Length)] := false;
          ph[i] := me.(phase := if kind.Admission? then Leave else Think);
      }
    }

    /** One step of philosopher i; nothing happens when it has to wait. */
    method Act(i: nat)
      requires Valid() && i < ph.Length
      modifies this`meals, this`admission, taken, ph
      ensures View() == Step(old(View()), i)
    {
      var me := ph[i];
      match me.phase {
        case Test => ph[i] := me.(phase := if meals < limit then TakeFirst else Done);
        case Enter =>
          if admission > 0 {
            admission := admission - 1;
            ph[i] := me.(phase := TakeFirst);
          }
        case Leave => admission := admission + 1; ph[i] := me.(phase := Think);
        case Think => ph[i] := me.(phase := Start(kind));
        case Done =>
        case TakeFirst | TakeSecond | TrySecond | GiveBack | Sleep => TakeForks(i);
        case _ => EatAndDrop(i);
      }
    }

    /** Any schedule; only the plain program can end up deadlocked. */
    method Run(schedule: seq<nat>)
      requires Valid() && View() == Init(kind, ph.Length, limit)
      requires forall k :: 0 <= k < |schedule| ==> schedule[k] < ph.Length
      modifies this`meals, this`admission, taken, ph
      ensures View() == Exec(Step, old(View()), schedule) && Inv(View())
      ensures Deadlocked(View()) ==> kind.Plain? && AllHoldOne(View())
    {
      ghost var s0 := View();
      for k := 0 to |schedule|
        invariant View() == Exec(Step, s0, schedule[..k])
      {
        ExecOne(Step, s0, schedule[..k], schedule[k]);
        assert schedule[..k + 1] == schedule[..k] + [schedule[k]];
        Act(schedule[k]);
      }
      assert schedule[..|schedule|] == schedule;
      ReachableInv(kind, ph.Length, limit, schedule);
      DeadlockIff(kind, ph.Length, limit);
      if kind.Plain? { PlainDeadlock(View()); }
    }
  }
}
