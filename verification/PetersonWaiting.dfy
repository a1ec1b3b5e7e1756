/** How long a thread of `PetersonTso` waits: alone it does not, and otherwise the other thread gets ahead of it
    at most once. */
module PetersonWaiting {
  import opened PetersonTso
  import opened Runs

  // ----- the other thread is held off -----

  /** t has asked and the other one cannot pass its own guard before t has passed. */
  predicate HeldOff(s: State, t: nat) {
    Shaped(s) && t < 2 && Asked(s.th[t]) &&
    var you := s.th[Other(t)];
    match you.phase
    case SetFlag | SetTurn | Done => true
    case Fence => you.buffer != [] || s.mem.turno == t
    case ReadFlag | ReadTurn => s.mem.turno == t
    case _ => false
  }

  /** Since a moment when t had `from` rounds behind it, t has passed its guard. */
  predicate GotIn(s: State, t: nat, from: nat) {
    Shaped(s) && t < 2 && (s.th[t].rounds > from || (s.th[t].rounds == from && Critical(s.th[t])))
  }

  /** t still waits, and the other one has finished at most `more` further rounds. */
  predicate Overtaken(s: State, t: nat, yours: nat, more: nat) {
    && Shaped(s) && t < 2 && Asked(s.th[t])
    && s.th[Other(t)].rounds <= yours + more
    && (s.th[Other(t)].rounds < yours + more || HeldOff(s, t))
  }

  lemma AskedRuns(s: State, t: nat)
    requires Inv(s) && t < 2 && Asked(s.th[t])
    ensures Shaped(Step(s, Run(t))) && Step(s, Run(t)).mem == s.mem
    ensures var me' := Step(s, Run(t)).th[t]; me'.rounds == s.th[t].rounds && (Asked(me') || Critical(me'))
    ensures s.th[t].buffer == []
  {
    assert OwnOk(s, t);
  }

  /** The other thread's own instruction: it finishes a round only from inside, and held off it stays out. */
  lemma YouRun(s: State, t: nat)
    requires Inv(s) && t < 2 && Asked(s.th[t])
    ensures var s' := Step(s, Run(Other(t)));
      && Shaped(s') && s'.th[t] == s.th[t]
      && s'.th[Other(t)].rounds <= s.th[Other(t)].rounds + 1
      && (s'.th[Other(t)].rounds > s.th[Other(t)].rounds || HeldOff(s, t) ==> HeldOff(s', t))
      && (HeldOff(s, t) ==> s'.th[Other(t)].rounds == s.th[Other(t)].rounds)
  {
    assert OwnOk(s, t) && OwnOk(s, Other(t));
    assert Announced(s.th[t]) && s.mem.flag[t] == 1;
  }

  /** A store of the other thread that reaches memory leaves the turn alone or gives it to t. */
  lemma YouFlush(s: State, t: nat)
    requires Inv(s) && t < 2 && Asked(s.th[t])
    ensures var s' := Step(s, Flush(Other(t)));
      && Shaped(s') && s'.th[t] == s.th[t] && s'.th[Other(t)].rounds == s.th[Other(t)].rounds
      && (HeldOff(s, t) ==> HeldOff(s', t))
  {
    var you := s.th[Other(t)];
    assert OwnOk(s, Other(t));
    if you.buffer != [] { FlushStanding(s, Other(t)); }
  }

  lemma StepKeepsWaiting(s: State, a: Action, t: nat, from: nat, yours: nat, more: nat)
    requires Inv(s) && (GotIn(s, t, from) || (Overtaken(s, t, yours, more) && s.th[t].rounds == from))
    ensures var s' := Step(s, a); GotIn(s', t, from) || (Overtaken(s', t, yours, more) && s'.th[t].rounds == from)
  {
    if GotIn(s, t, from) {
      GotInStays(s, a, t, from);
    } else if a.t == t {
      AskedRuns(s, t);
    } else if a.t < 2 {
      assert a.t == Other(t);
      if a.Run? { YouRun(s, t); } else { YouFlush(s, t); }
    }
  }

  lemma GotInStays(s: State, a: Action, t: nat, from: nat)
    requires GotIn(s, t, from)
    ensures GotIn(Step(s, a), t, from)
  {
  }

  lemma RunKeepsWaiting(s: State, schedule: seq<Action>, t: nat, more: nat)
    requires Inv(s) && t < 2 && Overtaken(s, t, s.th[Other(t)].rounds, more)
    ensures var s', from := Exec(Step, s, schedule), s.th[t].rounds;
      GotIn(s', t, from) || (Overtaken(s', t, s.th[Other(t)].rounds, more) && s'.th[t].rounds == from)
  {
    var from, yours := s.th[t].rounds, s.th[Other(t)].rounds;
    forall x: State, a: Action
      | Inv(x) && (GotIn(x, t, from) || (Overtaken(x, t, yours, more) && x.th[t].rounds == from))
      ensures Inv(Step(x, a))
      ensures GotIn(Step(x, a), t, from) || (Overtaken(Step(x, a), t, yours, more) && Step(x, a).th[t].rounds == from)
    {
      StepKeepsWaiting(x, a, t, from, yours, more);
      if a.t < 2 {
        if a.Run? { RunKeepsInv(x, a.t); } else { FlushKeepsInv(x, a.t); }
      }
    }
    InvariantHolds(Step,
      (x: State) => Inv(x) && (GotIn(x, t, from) || (Overtaken(x, t, yours, more) && x.th[t].rounds == from)),
      s, schedule);
  }

  /** Rounds finished, and the one under way if it is past the guard. */
  function Entries(me: Thread): nat { me.rounds + if Critical(me) then 1 else 0 }

  /** Bounded waiting: once a thread's two stores have reached memory, the other one gets in at most once more
      before it does, whatever the schedule. */
  lemma OvertakenAtMostOnce(s: State, schedule: seq<Action>, t: nat)
    requires Inv(s) && t < 2 && Asked(s.th[t])
    ensures var s' := Exec(Step, s, schedule);
      && Shaped(s')
      && (GotIn(s', t, s.th[t].rounds)
          || (Asked(s'.th[t]) && Entries(s'.th[Other(t)]) <= s.th[Other(t)].rounds + 1))
  {
    RunKeepsWaiting(s, schedule, t, 1);
  }

  /** ... and not at all when it has still to store its turn, or stored it last. */
  lemma HeldOffUntilIn(s: State, schedule: seq<Action>, t: nat)
    requires Inv(s) && HeldOff(s, t)
    ensures var s' := Exec(Step, s, schedule);
      && Shaped(s')
      && (GotIn(s', t, s.th[t].rounds) || Entries(s'.th[Other(t)]) == Entries(s.th[Other(t)]))
  {
    RoundsGrow(s, schedule, Other(t));
    RunKeepsWaiting(s, schedule, t, 0);
  }

  lemma RoundsGrow(s: State, schedule: seq<Action>, t: nat)
    requires Shaped(s) && t < 2
    ensures Shaped(Exec(Step, s, schedule)) && s.th[t].rounds <= Exec(Step, s, schedule).th[t].rounds
  {
    InvariantHolds(Step, (x: State) => Shaped(x) && s.th[t].rounds <= x.th[t].rounds, s, schedule);
  }

  // ----- alone -----

  /** Where t is after k of the six steps from the loop test to the inside. */
  function Entering(s: State, t: nat, k: nat): State
    requires Shaped(s) && t < 2 && k <= 6
  {
    var me := s.th[t];
    var both := [Pending(Flag(t), 1), Pending(Turn, Other(t))];
    var phase := match k
      case 0 => SetFlag case 1 => SetTurn case 2 => Fence case 3 => Fence case 4 => Fence
      case 5 => ReadFlag case _ => Load;
    var buffer := match k case 1 => both[..1] case 2 => both case 3 => both[1..] case _ => [];
    var mem := if k < 3 then s.mem else s.mem.(flag := s.mem.flag[t := 1]);
    s.(mem := if k < 4 then mem else mem.(turno := Other(t)), th := s.th[t := me.(phase := phase, buffer := buffer)])
  }

  predicate CanStart(s: State, t: nat) {
    && Shaped(s) && t < 2 && s.fenced && s.th[t].phase.SetFlag? && s.th[t].buffer == [] && s.th[t].rounds < s.limit
    && s.mem.flag[Other(t)] != 1
  }

  function NextAction(t: nat, k: nat): Action { if k == 2 || k == 3 then Flush(t) else Run(t) }

  lemma EnteringStep(s: State, t: nat, k: nat)
    requires CanStart(s, t) && k < 6
    ensures Step(Entering(s, t, k), NextAction(t, k)) == Entering(s, t, k + 1)
  {
    var x, y := Entering(s, t, k), Entering(s, t, k + 1);
    assert Step(x, NextAction(t, k)).mem == y.mem;
    assert Step(x, NextAction(t, k)).th[t] == y.th[t];
  }

  /** While the other thread's flag is down a thread goes in by its own instructions and stores, and does not
      wait for anything: not even for stores of the other thread that are still buffered. */
  lemma EntersAlone(s: State, t: nat)
    requires CanStart(s, t)
    ensures Reaches(Step, s, Entering(s, t, 6))
  {
    ReachesSelf(Step, s);
    assert Entering(s, t, 0) == s;
    for k := 0 to 6
      invariant Reaches(Step, s, Entering(s, t, k))
    {
      ReachesStep(Step, s, Entering(s, t, k), NextAction(t, k));
      EnteringStep(s, t, k);
    }
  }
}
