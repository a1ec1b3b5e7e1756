/** Who gets a chair: a client is turned away only when all chairs are taken, and a newcomer who finds one is
    seated and served. */
module BarberArrivals {
  import opened Barber
  import opened Counting
  import opened Runs

  // ----- who is turned away -----

  predicate AwayOk(s: State) {
    forall t :: 0 <= t < |s.cl| && s.cl[t].phase.FullUnlock? ==> s.clientes == s.sillas
  }

  /** The number of chairs taken changes only under the mutex. */
  lemma ClientKeepsAway(s: State, t: nat)
    requires Inv(s) && AwayOk(s) && t < |s.cl|
    ensures AwayOk(ClientStep(s, t))
  {
    var s' := ClientStep(s, t);
    ClientHistory(s, t);
    forall u | 0 <= u < |s'.cl| && s'.cl[u].phase.FullUnlock? ensures s'.clientes == s'.sillas {
      if u != t && HoldsMutex(s.cl[t]) {
        OneUnderMutex(s.cl, t, u);
      }
    }
  }

  lemma StepKeepsAway(s: State, a: Action)
    requires Inv(s) && AwayOk(s)
    ensures AwayOk(Step(s, a))
  {
    match a
    case Work => assert BarberStep(s).cl == s.cl;
    case Act(t) => if t < |s.cl| { ClientKeepsAway(s, t); }
    case Arrive(t, id) =>
      assert forall u :: 0 <= u < |s.cl| && Step(s, a).cl[u].phase.FullUnlock? ==> s.cl[u].phase.FullUnlock?;
  }

  ghost predicate Good(s: State, threads: nat) { Inv(s) && AwayOk(s) && |s.cl| == threads }

  lemma StepKeepsGood(s: State, a: Action, threads: nat)
    requires Good(s, threads)
    ensures Good(Step(s, a), threads)
  {
    StepKeepsInv(s, a);
    StepKeepsAway(s, a);
    match a
    case Work => BarberKeepsRest(s);
    case Act(t) => if t < threads { ClientHistory(s, t); }
    case Arrive(_, _) =>
  }

  lemma RunKeepsGood(s: State, schedule: seq<Action>, threads: nat)
    requires Good(s, threads)
    ensures Good(Exec(Step, s, schedule), threads)
  {
    forall x: State, a: Action | Good(x, threads) ensures Good(Step(x, a), threads) {
      StepKeepsGood(x, a, threads);
    }
    InvariantHolds(Step, (x: State) => Good(x, threads), s, schedule);
  }

  /** Client t has been served, or sees all the chairs taken. */
  predicate ServedOrFull(s: State, t: nat) {
    t < |s.cl| && (s.cl[t].phase.Paying? || (s.cl[t].phase.FullUnlock? && s.clientes == s.sillas))
  }

  ghost predicate WasServedOrFull(s: State, schedule: seq<Action>, t: nat) {
    exists k :: 0 <= k <= |schedule| && ServedOrFull(Exec(Step, s, schedule[..k]), t)
  }

  lemma EarlierStill(s: State, schedule: seq<Action>, t: nat)
    requires schedule != [] && WasServedOrFull(s, schedule[..|schedule| - 1], t)
    ensures WasServedOrFull(s, schedule, t)
  {
    var k :| 0 <= k <= |schedule| - 1 && ServedOrFull(Exec(Step, s, schedule[..|schedule| - 1][..k]), t);
    assert schedule[..|schedule| - 1][..k] == schedule[..k];
  }

  lemma LeavesFrom(s: State, a: Action, t: nat)
    requires AwayOk(s) && t < |s.cl| && Live(s.cl[t])
    ensures |Step(s, a).cl| == |s.cl| && (Live(Step(s, a).cl[t]) || ServedOrFull(s, t))
  {
    match a
    case Act(u) => if u < |s.cl| { ClientHistory(s, u); }
    case _ =>
  }

  lemma NowServedOrFull(s: State, before: seq<Action>, schedule: seq<Action>, t: nat)
    requires before <= schedule && ServedOrFull(Exec(Step, s, before), t)
    ensures WasServedOrFull(s, schedule, t)
  {
    assert schedule[..|before|] == before;
  }

  /** Whoever came in and has left again has been cut and has paid, or found every chair taken. */
  lemma {:induction false} LeavesServedOrFull(s: State, schedule: seq<Action>, t: nat)
    requires Inv(s) && AwayOk(s) && t < |s.cl| && Live(s.cl[t])
    ensures |Exec(Step, s, schedule).cl| == |s.cl|
    ensures Live(Exec(Step, s, schedule).cl[t]) || WasServedOrFull(s, schedule, t)
    decreases |schedule|
  {
    RunKeepsGood(s, schedule, |s.cl|);
    if schedule != [] {
      var before := schedule[..|schedule| - 1];
      LeavesServedOrFull(s, before, t);
      if WasServedOrFull(s, before, t) {
        EarlierStill(s, schedule, t);
      } else {
        RunKeepsGood(s, before, |s.cl|);
        LeavesFrom(Exec(Step, s, before), schedule[|schedule| - 1], t);
        if ServedOrFull(Exec(Step, s, before), t) { NowServedOrFull(s, before, schedule, t); }
      }
    }
  }

  // ----- a chair for whoever finds one -----

  function Times(s: State, t: nat, k: nat): State {
    if k == 0 then s else Step(Times(s, t, k - 1), Act(t))
  }

  ghost predicate ReachedFrom(s: State, x: State) { Reaches(Step, s, x) && Inv(x) }

  lemma ReachedOn(s: State, x: State, a: Action)
    requires ReachedFrom(s, x)
    ensures ReachedFrom(s, Step(x, a))
  {
    StepReached(x, a);
    ReachesTrans(Step, s, x, Step(x, a));
  }

  lemma {:induction false} TimesFrom(s: State, t: nat, k: nat)
    requires ReachedFrom(s, s)
    ensures ReachedFrom(s, Times(s, t, k))
  {
    if k > 0 {
      TimesFrom(s, t, k - 1);
      ReachedOn(s, Times(s, t, k - 1), Act(t));
    }
  }

  lemma TimesReached(s: State, t: nat, k: nat)
    requires Inv(s)
    ensures Reaches(Step, s, Times(s, t, k)) && Inv(Times(s, t, k))
  {
    ReachesSelf(Step, s);
    TimesFrom(s, t, k);
  }

  lemma TimesThree(s: State, t: nat)
    ensures Times(s, t, 3) == Step(Step(Step(s, Act(t)), Act(t)), Act(t))
  {
    assert Times(s, t, 1) == Step(Times(s, t, 0), Act(t));
    assert Times(s, t, 2) == Step(Times(s, t, 1), Act(t));
  }

  /** The state after a client has sat down. */
  function Seated(s: State, t: nat): State
    requires t < |s.cl| && s.pos < |s.turno|
  {
    var me := s.cl[t];
    s.(clientes := s.clientes + 1, turno := s.turno[s.pos := me.num], seated := s.seated + [me.num],
       queue := s.queue + [t], cl := s.cl[t := me.(phase := MovePos)])
  }

  lemma SitSteps(s: State, t: nat)
    requires t < |s.cl| && s.cl[t].phase.TestFull? && s.clientes != s.sillas && s.pos < |s.turno|
    ensures Step(Step(Step(s, Act(t)), Act(t)), Act(t)) == Seated(s, t)
  {
    var me := s.cl[t];
    var s1 := Step(s, Act(t));
    assert s1 == s.(cl := s.cl[t := me.(phase := Enter)]);
    var s2 := Step(s1, Act(t));
    assert s2 == s.(clientes := s.clientes + 1, cl := s.cl[t := me.(phase := Sit)]);
  }

  /** A client that tests the chairs and finds one free sits down on it, whatever the others do: three steps of
      its own, its id last in the order of arrival, and its chair names it. */
  lemma SitsDown(s: State, t: nat)
    requires Inv(s) && t < |s.cl| && s.cl[t].phase.TestFull? && s.clientes < s.sillas
    ensures s.pos < |s.turno| && Times(s, t, 3) == Seated(s, t)
  {
    TimesThree(s, t);
    SitSteps(s, t);
  }

  predicate CanArrive(s: State, t: nat, id: nat) {
    t < |s.cl| && !Live(s.cl[t]) && forall u :: 0 <= u < |s.cl| && Live(s.cl[u]) ==> s.cl[u].num != id
  }

  /** It comes in and locks the mutex. */
  lemma ComesIn(s: State, t: nat, id: nat)
    requires CanArrive(s, t, id) && s.sem.mutex == 1
    ensures Times(Step(s, Arrive(t, id)), t, 1) == s.(sem := s.sem.(mutex := 0), cl := s.cl[t := Client(TestFull, id)])
  {
    var s1 := Step(s, Arrive(t, id));
    assert Times(s1, t, 1) == Step(Times(s1, t, 0), Act(t));
  }

  /** With the mutex free and a chair free a newcomer is seated in five steps of its own. */
  lemma NewcomerSits(s: State, t: nat, id: nat)
    requires Inv(s) && CanArrive(s, t, id) && s.sem.mutex == 1 && s.clientes < s.sillas
    ensures var s' := Times(Step(s, Arrive(t, id)), t, 4);
      && Reaches(Step, s, s') && Inv(s') && |s'.cl| == |s.cl| && s'.seated == s.seated + [id]
      && s.pos < |s'.turno| && s'.turno[s.pos] == id && s'.clientes == s.clientes + 1
  {
    var s1 := Step(s, Arrive(t, id));
    StepReached(s, Arrive(t, id));
    TimesReached(s1, t, 4);
    ReachesTrans(Step, s, s1, Times(s1, t, 4));
    ComesIn(s, t, id);
    TimesReached(s1, t, 1);
    SitsDown(Times(s1, t, 1), t);
    OneMore(s1, t, 3);
  }

  lemma {:induction false} OneMore(s: State, t: nat, k: nat)
    ensures Times(s, t, k + 1) == Times(Times(s, t, 1), t, k)
  {
    if k > 0 {
      OneMore(s, t, k - 1);
    }
  }

  // ----- and the mutex is given back -----

  /** Under the mutex and about to take a chair, or to find that there is none. */
  predicate Claiming(c: Client) { c.phase.TestFull? || c.phase.Enter? }

  /** The chairs taken and the ones that may be taken before anybody else tests. */
  function Claims(s: State): nat { s.clientes + Count(s.cl, Claiming) }

  lemma ClaimsStep(s: State, t: nat)
    requires t < |s.cl| && HoldsMutex(s.cl[t])
    ensures Claims(ClientStep(s, t)) <= Claims(s)
  {
    ClientHistory(s, t);
    CountUpdate(s.cl, t, s.cl[t].(phase := NextPhase(s, t)), Claiming);
    if Claiming(s.cl[t]) { CountTwo(s.cl, Claiming, t, t); }
  }

  /** Nobody comes in, and who is outside stays there. */
  predicate NobodyComes(s: State, s': State) {
    && |s'.cl| == |s.cl| && s'.sillas == s.sillas && s.seated <= s'.seated
    && forall u :: 0 <= u < |s.cl| ==> s'.cl[u].num == s.cl[u].num && (!Live(s.cl[u]) ==> s'.cl[u] == s.cl[u])
  }

  lemma NobodyComesStep(s: State, t: nat)
    requires t < |s.cl| && Live(s.cl[t])
    ensures NobodyComes(s, ClientStep(s, t))
  {
    ClientHistory(s, t);
    assert ClientStep(s, t).sillas == s.sillas;
  }

  /** s' comes after s, and the holder of the mutex is nearer to giving it back. */
  ghost predicate Freer(s: State, s': State) {
    Reaches(Step, s, s') && Inv(s') && Left(s') < Left(s) && Claims(s') <= Claims(s) && NobodyComes(s, s')
  }

  lemma BarberFreer(s: State)
    requires Inv(s) && (s.barber.Bump? || s.barber.Wrap? || s.barber.UnlockTurn?)
    ensures Freer(s, Step(s, Work))
  {
    StepReached(s, Work);
    BarberKeepsRest(s);
    assert BarberStep(s).barber != s.barber && BarberStep(s).clientes == s.clientes;
    BarberAdvances(s, TallyOf(s.cl));
  }

  lemma ClientFreer(s: State, t: nat)
    requires Inv(s) && t < |s.cl| && HoldsMutex(s.cl[t])
    ensures Freer(s, Step(s, Act(t)))
  {
    StepReached(s, Act(t));
    HolderAdvances(s, t);
  }

  lemma HolderAdvances(s: State, t: nat)
    requires t < |s.cl| && HoldsMutex(s.cl[t])
    ensures var s' := ClientStep(s, t); Left(s') < Left(s) && Claims(s') <= Claims(s) && NobodyComes(s, s')
  {
    LeftDrops(s, t);
    ClaimsStep(s, t);
    NobodyComesStep(s, t);
  }

  /** Whoever holds the mutex takes its next step. */
  lemma HolderStep(s: State) returns (s': State)
    requires Inv(s) && s.sem.mutex == 0
    ensures Freer(s, s')
  {
    if s.barber.Bump? || s.barber.Wrap? || s.barber.UnlockTurn? {
      BarberFreer(s);
      s' := Step(s, Work);
    } else {
      var t := CountWitness(s.cl, HoldsMutex);
      ClientFreer(s, t);
      s' := Step(s, Act(t));
    }
  }

  lemma {:induction false} MutexFreed(s: State) returns (s': State)
    requires Inv(s)
    ensures Reaches(Step, s, s') && Inv(s') && s'.sem.mutex == 1 && Claims(s') <= Claims(s) && NobodyComes(s, s')
    decreases Left(s)
  {
    if s.sem.mutex == 0 {
      var s1 := HolderStep(s);
      s' := MutexFreed(s1);
      ReachesTrans(Step, s, s1, s');
    } else {
      s' := s;
      ReachesSelf(Step, s);
    }
  }

  /** A newcomer that finds room, counting the chair that the holder of the mutex may be about to take, can be
      seated next, and from there everybody seated is served in order, the newcomer among them. */
  lemma NewcomerIsServed(s: State, t: nat, id: nat) returns (s1: State, s2: State)
    requires Inv(s) && CanArrive(s, t, id) && Claims(s) < s.sillas
    ensures Reaches(Step, s, s1) && s.seated < s1.seated && s1.seated[|s1.seated| - 1] == id && id in s1.turno
    ensures Reaches(Step, s1, s2) && Served(s2) && s1.seated <= s2.admitted && |s1.seated| <= s2.rounds
  {
    var s0 := MutexFreed(s);
    NewcomerSits(s0, t, id);
    s1 := Times(Step(s0, Arrive(t, id)), t, 4);
    ReachesTrans(Step, s, s0, s1);
    s2 := EveryoneCanBeServed(s1);
  }

  lemma ArrivalIsServed(sillas: nat, threads: nat, schedule: seq<Action>, t: nat, id: nat) returns (s1: State, s2: State)
    requires sillas > 0
    requires var s := Exec(Step, Init(sillas, threads), schedule); CanArrive(s, t, id) && Claims(s) < sillas
    ensures var s := Exec(Step, Init(sillas, threads), schedule);
      && Reaches(Step, s, s1) && s.seated < s1.seated && s1.seated[|s1.seated| - 1] == id && id in s1.turno
      && Reaches(Step, s1, s2) && Served(s2) && s1.seated <= s2.admitted && |s1.seated| <= s2.rounds
  {
    ReachableInv(sillas, threads, schedule);
    s1, s2 := NewcomerIsServed(Exec(Step, Init(sillas, threads), schedule), t, id);
  }

  /** In every run a client is sent away only while all the chairs are taken. */
  lemma TurnedAwayOnlyWhenFull(sillas: nat, threads: nat, schedule: seq<Action>, t: nat)
    requires sillas > 0
    ensures var s := Exec(Step, Init(sillas, threads), schedule);
      t < |s.cl| && s.cl[t].phase.FullUnlock? ==> s.clientes == sillas
  {
    InitInv(sillas, threads);
    RunKeepsGood(Init(sillas, threads), schedule, threads);
    ReachableInv(sillas, threads, schedule);
  }
}
