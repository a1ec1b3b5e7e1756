/** Peterson's lock of `molinete0` and `molinete1` on a processor with store buffers.

    Memory is x86-TSO: a store goes into the FIFO buffer of the thread that makes it and reaches
    memory at any later time, a load takes the newest store to that location in the thread's own
    buffer and otherwise memory, and `mfence` waits until the buffer is empty.  The guard reads
    `flag` and `turno` separately and `visitantes++` is a load followed by a store.  `fenced` says
    whether the `mfence` of the code is there. */
module PetersonTso {
  import opened Runs

  datatype Location = Flag(owner: nat) | Turn | Visitors

  datatype Pending = Pending(loc: Location, value: nat)

  datatype Memory = Memory(flag: seq<nat>, turno: nat, visitantes: nat)

  datatype Phase =
    | SetFlag     // loop test, then flag[t] = 1
    | SetTurn     // turno = other
    | Fence       // mfence
    | ReadFlag    // flag[other] == 1 ?
    | ReadTurn    // turno == other ?
    | Load        // c = visitantes
    | Add         // visitantes = c + 1
    | Clear       // flag[t] = 0, i++
    | Done

  datatype Thread = Thread(phase: Phase, c: nat, rounds: nat, buffer: seq<Pending>)

  datatype State = State(limit: nat, fenced: bool, mem: Memory, th: seq<Thread>)

  datatype Action = Run(t: nat) | Flush(t: nat)

  function Init(limit: nat, fenced: bool): State {
    State(limit, fenced, Memory([0, 0], 0, 0), [Thread(SetFlag, 0, 0, []), Thread(SetFlag, 0, 0, [])])
  }

  predicate Shaped(s: State) { |s.th| == 2 && |s.mem.flag| == 2 }

  function Other(t: nat): nat
    requires t < 2
  {
    1 - t
  }

  function ReadMemory(m: Memory, loc: Location): nat {
    match loc
    case Flag(i) => if i < |m.flag| then m.flag[i] else 0
    case Turn => m.turno
    case Visitors => m.visitantes
  }

  function WriteMemory(m: Memory, p: Pending): Memory {
    match p.loc
    case Flag(i) => if i < |m.flag| then m.(flag := m.flag[i := p.value]) else m
    case Turn => m.(turno := p.value)
    case Visitors => m.(visitantes := p.value)
  }

  /** A load: the newest store to loc in the thread's own buffer, otherwise memory. */
  function Read(m: Memory, buffer: seq<Pending>, loc: Location): nat
    decreases |buffer|
  {
    if buffer == [] then ReadMemory(m, loc)
    else
      var last := buffer[|buffer| - 1];
      if last.loc == loc then last.value else Read(m, buffer[..|buffer| - 1], loc)
  }

  function Advance(s: State, t: nat): Thread
    requires Shaped(s) && t < 2
  {
    var me := s.th[t];
    match me.phase
    case SetFlag =>
      if me.rounds < s.limit then me.(phase := SetTurn, buffer := me.buffer + [Pending(Flag(t), 1)])
      else me.(phase := Done)
    case SetTurn => me.(phase := Fence, buffer := me.buffer + [Pending(Turn, Other(t))])
    case Fence => if me.buffer == [] || !s.fenced then me.(phase := ReadFlag) else me
    case ReadFlag =>
      me.(phase := if Read(s.mem, me.buffer, Flag(Other(t))) == 1 then ReadTurn else Load)
    case ReadTurn =>
      me.(phase := if Read(s.mem, me.buffer, Turn) == Other(t) then ReadFlag else Load)
    case Load => me.(phase := Add, c := Read(s.mem, me.buffer, Visitors))
    case Add => me.(phase := Clear, buffer := me.buffer + [Pending(Visitors, me.c + 1)])
    case Clear => me.(phase := SetFlag, rounds := me.rounds + 1, buffer := me.buffer + [Pending(Flag(t), 0)])
    case Done => me
  }

  /** A thread executes its next instruction, or its oldest buffered store reaches memory. */
  function Step(s: State, a: Action): State {
    if !Shaped(s) || a.t >= 2 then s
    else
      var me := s.th[a.t];
      match a
      case Run(t) => s.(th := s.th[t := Advance(s, t)])
      case Flush(t) =>
        if me.buffer == [] then s
        else s.(mem := WriteMemory(s.mem, me.buffer[0]), th := s.th[t := me.(buffer := me.buffer[1..])])
  }

  // ----- the invariant -----

  /** The stores a thread makes, in order, from its visit to its next mfence. */
  function Issued(t: nat, k: int, v: nat): Pending
    requires t < 2
  {
    if k <= 0 then Pending(Visitors, v)
    else if k == 1 then Pending(Flag(t), 0)
    else if k == 2 then Pending(Flag(t), 1)
    else Pending(Turn, Other(t))
  }

  /** How many of those it has made at each phase. */
  function Made(phase: Phase): nat {
    match phase
    case Clear => 1
    case SetFlag => 2
    case Done => 2
    case SetTurn => 3
    case Fence => 4
    case _ => 0
  }

  /** The buffer holds the last of the stores made, oldest first; v is what its visit writes. */
  predicate Tail(buffer: seq<Pending>, t: nat, made: nat, v: nat)
    requires t < 2
  {
    && |buffer| <= made
    && forall i :: 0 <= i < |buffer| ==> buffer[i] == Issued(t, made - |buffer| + i, v)
  }

  /** How much of the backlog's end is still unwritten when the clearing of the flag is. */
  function AfterClear(phase: Phase): nat {
    match phase case SetTurn => 1 case Fence => 2 case _ => 0
  }

  /** The thread is inside, or is not yet seen to have left: its `flag[t] = 0` is still buffered. */
  predicate Owns(me: Thread) {
    || (me.phase.Load? || me.phase.Add? || me.phase.Clear?)
    || ((me.phase.SetFlag? || me.phase.Done? || me.phase.SetTurn? || me.phase.Fence?) && |me.buffer| > AfterClear(me.phase))
  }

  /** Its store to visitantes is still buffered. */
  predicate VisitPending(me: Thread) {
    || (me.phase == Clear && |me.buffer| == 1)
    || ((me.phase.SetFlag? || me.phase.Done? || me.phase.SetTurn? || me.phase.Fence?) && |me.buffer| == AfterClear(me.phase) + 2)
  }

  /** What memory says of flag[t]. */
  predicate Announced(me: Thread) {
    || (me.phase.ReadFlag? || me.phase.ReadTurn?)
    || Owns(me)
    || (me.phase == SetTurn && me.buffer == [])
    || (me.phase == Fence && |me.buffer| <= 1)
  }

  /** Its store to turno has reached memory and it is not inside yet. */
  predicate Asked(me: Thread) {
    (me.phase.ReadFlag? || me.phase.ReadTurn?) || (me.phase == Fence && me.buffer == [])
  }

  predicate OwnOk(s: State, t: nat)
    requires Shaped(s) && t < 2
  {
    var me := s.th[t];
    && Tail(me.buffer, t, Made(me.phase), s.mem.visitantes + 1)
    && s.mem.flag[t] == (if Announced(me) then 1 else 0)
    && (me.phase == Add ==> me.c == s.mem.visitantes)
    && me.rounds <= s.limit
    && (me.phase == Done ==> me.rounds == s.limit)
    && (!(me.phase.SetFlag? || me.phase.Done?) ==> me.rounds < s.limit)
  }

  predicate TurnOk(s: State, t: nat)
    requires Shaped(s) && t < 2
  {
    Owns(s.th[t]) && Asked(s.th[Other(t)]) ==> s.mem.turno == t
  }

  function Visits(me: Thread): int {
    me.rounds + (if me.phase == Clear then 1 else 0) - (if VisitPending(me) then 1 else 0)
  }

  ghost predicate Inv(s: State) {
    && Shaped(s) && s.fenced
    && OwnOk(s, 0) && OwnOk(s, 1)
    && s.mem.turno < 2
    && TurnOk(s, 0) && TurnOk(s, 1)
    && !(Owns(s.th[0]) && Owns(s.th[1]))
    && s.mem.visitantes == Visits(s.th[0]) + Visits(s.th[1])
  }

  lemma RunKeepsTail(s: State, t: nat)
    requires Shaped(s) && s.fenced && t < 2
    requires Tail(s.th[t].buffer, t, Made(s.th[t].phase), s.mem.visitantes + 1)
    requires s.th[t].phase == Add ==> s.th[t].c == s.mem.visitantes
    ensures Tail(Advance(s, t).buffer, t, Made(Advance(s, t).phase), s.mem.visitantes + 1)
  {
  }

  lemma RunOwn(s: State, t: nat)
    requires Shaped(s) && s.fenced && t < 2 && OwnOk(s, t)
    ensures OwnOk(Step(s, Run(t)), t)
  {
    RunKeepsTail(s, t);
    var me := s.th[t];
    assert me.phase.Load? ==> me.buffer == [];
  }

  /** A thread's own instruction: what it changes of its standing. */
  lemma RunStanding(s: State, t: nat)
    requires Shaped(s) && s.fenced && t < 2 && OwnOk(s, t)
    ensures var me, me' := s.th[t], Advance(s, t);
      && (Owns(me') ==> Owns(me) || (me.phase == ReadFlag && s.mem.flag[Other(t)] != 1)
                                 || (me.phase == ReadTurn && s.mem.turno != Other(t)))
      && (Owns(me) ==> Owns(me'))
      && (Asked(me') ==> Asked(me))
      && Visits(me') == Visits(me)
      && VisitPending(me') == (VisitPending(me) || me.phase == Add)
  {
    var me := s.th[t];
    match me.phase
    case SetFlag =>
    case SetTurn =>
    case Fence =>
    case ReadFlag => assert me.buffer == [];
    case ReadTurn => assert me.buffer == [];
    case Load => assert me.buffer == [];
    case Add =>
    case Clear =>
    case Done =>
  }

  lemma RunKeepsInv(s: State, t: nat)
    requires Inv(s) && t < 2
    ensures Inv(Step(s, Run(t)))
  {
    assert OwnOk(s, t) && OwnOk(s, Other(t)) && TurnOk(s, t) && TurnOk(s, Other(t));
    RunOwn(s, t);
    RunStanding(s, t);
    var s' := Step(s, Run(t));
    assert s'.mem == s.mem && s'.th[Other(t)] == s.th[Other(t)];
    assert OwnOk(s', Other(t));
    assert TurnOk(s', t) && TurnOk(s', Other(t));
  }

  /** A store of t reaching memory keeps what t's buffer and flag stand for. */
  lemma FlushOwn(s: State, t: nat)
    requires Shaped(s) && t < 2 && OwnOk(s, t) && s.th[t].buffer != []
    ensures var s' := Step(s, Flush(t));
      && Shaped(s') && OwnOk(s', t) && s'.mem.flag[Other(t)] == s.mem.flag[Other(t)]
      && s'.mem.visitantes == s.mem.visitantes + (if VisitPending(s.th[t]) then 1 else 0)
  {
    var me := s.th[t];
    assert me.buffer[0] == Issued(t, Made(me.phase) - |me.buffer|, s.mem.visitantes + 1);
    match me.phase
    case SetFlag =>
    case SetTurn =>
    case Fence =>
    case Clear =>
    case Done =>
    case _ =>
  }

  /** What it changes of t's standing and of the turn. */
  lemma FlushStanding(s: State, t: nat)
    requires Shaped(s) && t < 2 && OwnOk(s, t) && s.th[t].buffer != []
    ensures var s' := Step(s, Flush(t));
      var me, me' := s.th[t], s'.th[t];
      && Shaped(s')
      && Visits(me') == Visits(me) + (if VisitPending(me) then 1 else 0)
      && (VisitPending(me) ==> Owns(me))
      && (Owns(me') ==> Owns(me))
      && (if Asked(me') then s'.mem.turno == Other(t) else s'.mem.turno == s.mem.turno)
      && !Asked(me)
  {
    var me := s.th[t];
    assert me.buffer[0] == Issued(t, Made(me.phase) - |me.buffer|, s.mem.visitantes + 1);
    match me.phase
    case SetFlag =>
    case SetTurn =>
    case Fence =>
    case Clear =>
    case Done =>
    case _ =>
  }

  /** What the other thread's buffer holds is not disturbed: it has no visit of its own pending. */
  lemma FlushOther(s: State, t: nat)
    requires Inv(s) && t < 2 && s.th[t].buffer != []
    ensures Shaped(Step(s, Flush(t))) && OwnOk(Step(s, Flush(t)), Other(t))
  {
    var s' := Step(s, Flush(t));
    var you := s.th[Other(t)];
    assert OwnOk(s, t) && OwnOk(s, Other(t));
    FlushOwn(s, t);
    FlushStanding(s, t);
    assert s'.th[Other(t)] == you;
    if VisitPending(s.th[t]) {
      assert !Owns(you);
      assert |you.buffer| < Made(you.phase) || you.buffer == [];
    }
  }

  lemma FlushKeepsInv(s: State, t: nat)
    requires Inv(s) && t < 2
    ensures Inv(Step(s, Flush(t)))
  {
    if s.th[t].buffer != [] {
      var s' := Step(s, Flush(t));
      FlushOther(s, t);
      assert OwnOk(s, t);
      FlushOwn(s, t);
      FlushStanding(s, t);
      assert s'.th[Other(t)] == s.th[Other(t)] && s'.fenced;
      assert TurnOk(s, t) && TurnOk(s, Other(t));
      assert TurnOk(s', t) && TurnOk(s', Other(t)) && s'.mem.turno < 2;
      assert !(Owns(s'.th[t]) && Owns(s'.th[Other(t)]));
    }
  }

  lemma ReachableInv(limit: nat, schedule: seq<Action>)
    ensures Inv(Exec(Step, Init(limit, true), schedule)) && Exec(Step, Init(limit, true), schedule).limit == limit
  {
    forall s: State, a: Action | Inv(s) && s.limit == limit ensures Inv(Step(s, a)) && Step(s, a).limit == limit {
      if a.t < 2 {
        if a.Run? { RunKeepsInv(s, a.t); } else { FlushKeepsInv(s, a.t); }
      }
    }
    InvariantHolds(Step, (s: State) => Inv(s) && s.limit == limit, Init(limit, true), schedule);
  }

  // ----- the critical section -----

  /** Between passing the guard and the store that clears the flag. */
  predicate Critical(me: Thread) { me.phase.Load? || me.phase.Add? || me.phase.Clear? }

  predicate BothInside(s: State) { Shaped(s) && Critical(s.th[0]) && Critical(s.th[1]) }

  /** The critical sections never overlap, not even counting the time until `flag[t] = 0` is visible. */
  lemma MutualExclusion(limit: nat, schedule: seq<Action>)
    ensures var s := Exec(Step, Init(limit, true), schedule);
            Shaped(s) && !(Owns(s.th[0]) && Owns(s.th[1])) && !BothInside(s)
  {
    ReachableInv(limit, schedule);
  }

  /** When a thread is about to load visitantes no store to it is buffered anywhere, so the load
      returns the number of all the visits made so far. */
  lemma VisitVisibleBeforeLoad(limit: nat, schedule: seq<Action>, t: nat)
    requires t < 2
    requires var s := Exec(Step, Init(limit, true), schedule); Shaped(s) && s.th[t].phase == Load
    ensures var s := Exec(Step, Init(limit, true), schedule);
      && (forall u, k :: 0 <= u < 2 && 0 <= k < |s.th[u].buffer| ==> s.th[u].buffer[k].loc != Visitors)
      && Read(s.mem, s.th[t].buffer, Visitors) == s.mem.visitantes == s.th[0].rounds + s.th[1].rounds
  {
    ReachableInv(limit, schedule);
    var s := Exec(Step, Init(limit, true), schedule);
    assert OwnOk(s, 0) && OwnOk(s, 1);
    assert s.th[t].buffer == [];
    var you := s.th[Other(t)];
    forall k | 0 <= k < |you.buffer| ensures you.buffer[k].loc != Visitors {
      assert you.buffer[k] == Issued(Other(t), Made(you.phase) - |you.buffer| + k, s.mem.visitantes + 1);
    }
  }

  /** Both threads have finished and everything they stored has reached memory. */
  predicate Complete(s: State) {
    Shaped(s) && forall t :: 0 <= t < 2 ==> s.th[t].phase == Done && s.th[t].buffer == []
  }

  /** Every completed run ends with visitantes == 2 * N_VISITANTES. */
  lemma VisitorsExact(limit: nat, schedule: seq<Action>)
    requires Complete(Exec(Step, Init(limit, true), schedule))
    ensures Exec(Step, Init(limit, true), schedule).mem.visitantes == 2 * limit
  {
    ReachableInv(limit, schedule);
    var s := Exec(Step, Init(limit, true), schedule);
    assert OwnOk(s, 0) && OwnOk(s, 1) && s.th[0].phase == Done && s.th[1].phase == Done;
  }

  // ----- no reachable state is a trap -----

  function PhaseRank(phase: Phase): nat {
    match phase
    case SetFlag => 17
    case SetTurn => 15
    case Fence => 13
    case ReadFlag => 12
    case ReadTurn => 11
    case Load => 10
    case Add => 9
    case Clear => 7
    case Done => 0
  }

  /** Instructions and buffered stores a thread still has ahead of it. */
  function Rank(limit: nat, me: Thread): int {
    (limit - me.rounds) * 20 + PhaseRank(me.phase) + |me.buffer|
  }

  function TotalRank(s: State): int
    requires Shaped(s)
  {
    Rank(s.limit, s.th[0]) + Rank(s.limit, s.th[1])
  }

  lemma RankNat(s: State)
    requires Inv(s)
    ensures TotalRank(s) >= 0
  {
    assert OwnOk(s, 0) && OwnOk(s, 1);
  }

  predicate Spinning(me: Thread) { me.phase == ReadFlag || me.phase == ReadTurn }

  lemma RunRank(s: State, t: nat)
    requires Shaped(s) && s.fenced && t < 2 && OwnOk(s, t) && s.th[t].buffer == [] && s.th[t].phase != Done
    ensures !(s.th[t].phase == ReadTurn && s.mem.turno == Other(t)) ==>
              Rank(s.limit, Advance(s, t)) < Rank(s.limit, s.th[t])
    ensures s.th[t].phase == ReadTurn && s.mem.turno == Other(t) ==>
              Advance(s, t) == s.th[t].(phase := ReadFlag)
    ensures s.th[t].phase == ReadFlag && s.mem.flag[Other(t)] == 0 ==> Advance(s, t).phase == Load
  {
  }

  /** s' comes after s with less ahead of it. */
  ghost predicate Closer(s: State, s': State)
    requires Shaped(s)
  {
    Reaches(Step, s, s') && Inv(s') && TotalRank(s') < TotalRank(s)
  }

  lemma FlushCloser(s: State, t: nat)
    requires Inv(s) && t < 2 && s.th[t].buffer != []
    ensures Closer(s, Step(s, Flush(t)))
  {
    ReachesSelf(Step, s);
    ReachesStep(Step, s, s, Flush(t));
    FlushKeepsInv(s, t);
  }

  predicate Drained(s: State) { Shaped(s) && s.th[0].buffer == [] && s.th[1].buffer == [] }

  lemma RunCloser(s: State, t: nat)
    requires Inv(s) && t < 2 && Drained(s) && s.th[t].phase != Done
    requires !(s.th[t].phase == ReadTurn && s.mem.turno == Other(t))
    ensures Closer(s, Step(s, Run(t)))
  {
    assert OwnOk(s, t);
    ReachesSelf(Step, s);
    ReachesStep(Step, s, s, Run(t));
    RunKeepsInv(s, t);
    RunRank(s, t);
  }

  /** The other has finished: a thread that reads the turn against it reads the flag next, and gets in. */
  lemma RereadCloser(s: State, t: nat) returns (s': State)
    requires Inv(s) && t < 2 && Drained(s) && s.th[t].phase == ReadTurn && s.mem.turno == Other(t)
    requires s.th[Other(t)].phase == Done
    ensures Closer(s, s')
  {
    assert OwnOk(s, t) && OwnOk(s, Other(t));
    var s1 := Step(s, Run(t));
    ReachesSelf(Step, s);
    ReachesStep(Step, s, s, Run(t));
    RunKeepsInv(s, t);
    RunRank(s, t);
    assert s1 == s.(th := s.th[t := s.th[t].(phase := ReadFlag)]);
    s' := Step(s1, Run(t));
    ReachesStep(Step, s, s1, Run(t));
    RunKeepsInv(s1, t);
    RunRank(s1, t);
  }

  /** With both buffers empty, a thread that does not spin moves on, and one that spins gets in at
      once or after its second read unless the other has the turn and spins too. */
  lemma RunMoves(s: State, t: nat) returns (s': State)
    requires Inv(s) && t < 2 && Drained(s) && s.th[t].phase != Done
    requires Spinning(s.th[t]) ==>
      s.th[Other(t)].phase == Done || (Spinning(s.th[Other(t)]) && s.mem.turno == t)
    ensures Closer(s, s')
  {
    if s.th[t].phase == ReadTurn && s.mem.turno == Other(t) {
      s' := RereadCloser(s, t);
    } else {
      RunCloser(s, t);
      s' := Step(s, Run(t));
    }
  }

  lemma DrainedMoves(s: State) returns (s': State)
    requires Inv(s) && Drained(s) && !Complete(s)
    ensures Closer(s, s')
  {
    if t: nat :| t < 2 && s.th[t].phase != Done && !Spinning(s.th[t]) {
      s' := RunMoves(s, t);
    } else if s.th[0].phase == Done {
      s' := RunMoves(s, 1);
    } else if s.th[1].phase == Done {
      s' := RunMoves(s, 0);
    } else {
      s' := RunMoves(s, s.mem.turno);
    }
  }

  lemma SomeMoves(s: State) returns (s': State)
    requires Inv(s) && !Complete(s)
    ensures Closer(s, s')
  {
    if t: nat :| t < 2 && s.th[t].buffer != [] {
      FlushCloser(s, t);
      s' := Step(s, Flush(t));
    } else {
      s' := DrainedMoves(s);
    }
  }

  /** Every state a run can reach can be continued to a completed run. */
  lemma {:induction false} CanComplete(s: State) returns (s': State)
    requires Inv(s)
    ensures Reaches(Step, s, s') && Complete(s')
    decreases TotalRank(s)
  {
    RankNat(s);
    if Complete(s) {
      s' := s;
      ReachesSelf(Step, s);
    } else {
      var s1 := SomeMoves(s);
      RankNat(s1);
      s' := CanComplete(s1);
      ReachesTrans(Step, s, s1, s');
    }
  }

  /** Whatever has happened so far, the run can be finished, and then no visit has been lost. */
  lemma AnyRunCanFinish(limit: nat, schedule: seq<Action>) returns (rest: seq<Action>)
    ensures var s := Exec(Step, Init(limit, true), schedule + rest);
            Complete(s) && s.mem.visitantes == 2 * limit
  {
    var s0 := Init(limit, true);
    ReachableInv(limit, schedule);
    var s := CanComplete(Exec(Step, s0, schedule));
    rest :| Exec(Step, Exec(Step, s0, schedule), rest) == s;
    ExecConcat(Step, s0, schedule, rest);
    VisitorsExact(limit, schedule + rest);
  }

  // ----- the fence is needed -----

  /** Without mfence both flags can still be buffered when both threads read them. */
  lemma BothEnter(limit: nat) returns (s: State)
    requires limit >= 1
    ensures Reaches(Step, Init(limit, false), s) && BothInside(s)
  {
    s := Init(limit, false);
    ReachesSelf(Step, s);
    for k := 0 to 4
      invariant Reaches(Step, Init(limit, false), s) && Shaped(s) && !s.fenced && s.limit == limit
      invariant s.mem == Memory([0, 0], 0, 0)
      invariant forall t :: 0 <= t < 2 ==>
        && s.th[t].rounds == 0
        && s.th[t].phase == [SetFlag, SetTurn, Fence, ReadFlag, Load][k]
        && forall i :: 0 <= i < |s.th[t].buffer| ==> s.th[t].buffer[i].loc != Flag(1 - t)
    {
      if k == 3 {
        NothingForwarded(s.mem, s.th[0].buffer, Flag(1));
        NothingForwarded(s.mem, s.th[1].buffer, Flag(0));
      }
      ReachesStep(Step, Init(limit, false), s, Run(0));
      ReachesStep(Step, Init(limit, false), Step(s, Run(0)), Run(1));
      s := Step(Step(s, Run(0)), Run(1));
    }
  }

  lemma {:induction false} NothingForwarded(m: Memory, buffer: seq<Pending>, loc: Location)
    requires forall i :: 0 <= i < |buffer| ==> buffer[i].loc != loc
    ensures Read(m, buffer, loc) == ReadMemory(m, loc)
    decreases |buffer|
  {
    if buffer != [] {
      NothingForwarded(m, buffer[..|buffer| - 1], loc);
    }
  }

  ghost predicate Excludes(limit: nat, fenced: bool) {
    forall schedule: seq<Action> :: !BothInside(Exec(Step, Init(limit, fenced), schedule))
  }

  predicate Idle(s: State) {
    Shaped(s) && s.limit == 0 && forall t :: 0 <= t < 2 ==> s.th[t].phase == SetFlag || s.th[t].phase == Done
  }

  /** Under x86-TSO the lock excludes in every run exactly because of the mfence. */
  lemma ExcludesIff(limit: nat, fenced: bool)
    ensures Excludes(limit, fenced) <==> fenced || limit == 0
  {
    if fenced {
      forall schedule: seq<Action> ensures !BothInside(Exec(Step, Init(limit, true), schedule)) {
        MutualExclusion(limit, schedule);
      }
    } else if limit == 0 {
      forall schedule: seq<Action> ensures !BothInside(Exec(Step, Init(0, false), schedule)) {
        InvariantHolds(Step, (x: State) => Idle(x), Init(0, false), schedule);
        assert Idle(Exec(Step, Init(0, false), schedule));
      }
    } else {
      var s := BothEnter(limit);
      var schedule: seq<Action> :| Exec(Step, Init(limit, false), schedule) == s;
    }
  }

  // ----- the program itself -----

  /** The globals of garden.c, written in place as the buffered stores reach them. */
  class Program {
    const limit: nat
    const flag: array<nat>
    const th: array<Thread>
    var turno: nat
    var visitantes: nat

    ghost predicate Valid()
      reads this
    {
      flag.Length == th.Length == 2
    }

    ghost function View(): State
      reads this, flag, th
    {
      State(limit, true, Memory(flag[..], turno, visitantes), th[..])
    }

    constructor (limit: nat)
      ensures Valid() && fresh(flag) && fresh(th) && View() == Init(limit, true)
    {
      this.limit := limit;
      flag := new nat[2](_ => 0);
      th := new Thread[2](_ => Thread(SetFlag, 0, 0, []));
      turno, visitantes := 0, 0;
    }

    /** A load of thread t, with store forwarding: its buffer is searched from the newest store. */
    method LoadFrom(t: nat, loc: Location) returns (value: nat)
      requires Valid() && t < 2
      ensures value == Read(View().mem, th[t].buffer, loc)
    {
      var buffer := th[t].buffer;
      var k := |buffer|;
      assert buffer[..k] == buffer;
      while k > 0 && buffer[k - 1].loc != loc
        invariant 0 <= k <= |buffer|
        invariant Read(View().mem, buffer, loc) == Read(View().mem, buffer[..k], loc)
      {
        assert buffer[..k][..k - 1] == buffer[..k - 1];
        k := k - 1;
      }
      if k > 0 {
        value := buffer[k - 1].value;
      } else {
        match loc {
          case Flag(i) => value := if i < 2 then flag[i] else 0;
          case Turn => value := turno;
          case Visitors => value := visitantes;
        }
      }
    }

    /** The next instruction of molinete t. */
    method Execute(t: nat)
      requires Valid() && t < 2
      modifies th
      ensures View() == Step(old(View()), Run(t))
    {
      var me := th[t];
      match me.phase {
        case SetFlag =>
          th[t] := if me.rounds < limit
            then me.(phase := SetTurn, buffer := me.buffer + [Pending(Flag(t), 1)])
            else me.(phase := Done);
        case SetTurn =>
          th[t] := me.(phase := Fence, buffer := me.buffer + [Pending(Turn, 1 - t)]);
        case Fence =>
          if me.buffer == [] {
            th[t] := me.(phase := ReadFlag);
          }
        case ReadFlag =>
          var v := LoadFrom(t, Flag(1 - t));
          th[t] := me.(phase := if v == 1 then ReadTurn else Load);
        case ReadTurn =>
          var v := LoadFrom(t, Turn);
          th[t] := me.(phase := if v == 1 - t then ReadFlag else Load);
        case Load =>
          var v := LoadFrom(t, Visitors);
          th[t] := me.(phase := Add, c := v);
        case Add =>
          th[t] := me.(phase := Clear, buffer := me.buffer + [Pending(Visitors, me.c + 1)]);
        case Clear =>
          th[t] := me.(phase := SetFlag, rounds := me.rounds + 1, buffer := me.buffer + [Pending(Flag(t), 0)]);
        case Done =>
      }
    }

    /** The oldest buffered store of thread t reaches memory. */
    method Drain(t: nat)
      requires Valid() && t < 2
      modifies this`turno, this`visitantes, flag, th
      ensures View() == Step(old(View()), Flush(t))
    {
      var me := th[t];
      if me.buffer != [] {
        match me.buffer[0].loc {
          case Flag(i) => if i < 2 { flag[i] := me.buffer[0].value; }
          case Turn => turno := me.buffer[0].value;
          case Visitors => visitantes := me.buffer[0].value;
        }
        th[t] := me.(buffer := me.buffer[1..]);
      }
    }

    /** Any interleaving of instructions and drained stores; a completed one has lost no visit. */
    method RunAll(schedule: seq<Action>)
      requires Valid() && View() == Init(limit, true)
      requires forall k :: 0 <= k < |schedule| ==> schedule[k].t < 2
      modifies this`turno, this`visitantes, flag, th
      ensures View() == Exec(Step, old(View()), schedule) && Inv(View())
      ensures Complete(View()) ==> visitantes == 2 * limit
    {
      ghost var s0 := View();
      for k := 0 to |schedule|
        invariant View() == Exec(Step, s0, schedule[..k])
      {
        ExecOne(Step, s0, schedule[..k], schedule[k]);
        assert schedule[..k + 1] == schedule[..k] + [schedule[k]];
        match schedule[k] {
          case Run(t) => Execute(t);
          case Flush(t) => Drain(t);
        }
      }
      assert schedule[..|schedule|] == schedule;
      ReachableInv(limit, schedule);
      if Complete(View()) {
        VisitorsExact(limit, schedule);
      }
    }
  }
}
