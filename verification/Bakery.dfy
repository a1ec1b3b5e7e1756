/** Lamport's bakery lock of `panaderia`, for any number of threads.

    Every step below is one access to shared memory: `max` reads a slot of `flag` once to compare it
    and, when it is larger, once more to take its value; the wait loop does one read per comparison;
    `visitantes = visitantes + 1` is a load and a store.  `tie` selects the comparison of the wait
    loop: without it the loop is the one `panaderia` has; with it, equal tickets are ordered by thread
    number, as `lamport_lock` documents. */
module Bakery {
  import opened Runs
  import opened Counting

  datatype Phase =
    | Idle                  // before the doorway: tests n < VPM, then choose[id] = 1
    | Scan                  // inside max: result = v[0], or v[k] > result ?
    | Rescan                // result = v[k], a second read
    | Ticket                // flag[id] = 1 + result
    | Leave                 // choose[id] = 0
    | AwaitChoose           // while (choose[k]);
    | CheckZero             // first read of flag[k]:  flag[k] != 0
    | CheckLess             // second read:            flag[k] < flag[id]
    | CheckTie              // third read:             flag[k] == flag[id] && k < id
    | Load                  // reads visitantes
    | Store                 // visitantes = c + 1
    | Release               // flag[id] = 0, n++
    | Done

  /** What is private to a thread: k is the slot it scans or waits for, m the `result` of max,
      c the value loaded from visitantes, rounds the loop counter n. */
  datatype Thread = Thread(phase: Phase, k: nat, m: nat, c: nat, rounds: nat)

  datatype State = State(vpm: nat, tie: bool, flag: seq<nat>, choose: seq<bool>, visitantes: nat, th: seq<Thread>)

  function Init(n: nat, vpm: nat, tie: bool): State {
    State(vpm, tie, seq(n, _ => 0), seq(n, _ => false), 0, seq(n, _ => Thread(Idle, 0, 0, 0, 0)))
  }

  predicate Shaped(s: State) {
    |s.flag| == |s.choose| == |s.th|
  }

  /** The thread's private state after one step, from what it reads of shared memory. */
  function Advance(s: State, i: nat): Thread
    requires Shaped(s) && i < |s.th|
  {
    var t := s.th[i];
    var n := |s.th|;
    var next := if t.k + 1 < n then t.(phase := AwaitChoose, k := t.k + 1) else t.(phase := Load);
    match t.phase
    case Idle => if t.rounds < s.vpm then t.(phase := Scan, k := 0) else t.(phase := Done)
    case Scan =>
      if t.k >= n then t
      else if t.k > 0 && s.flag[t.k] > t.m then t.(phase := Rescan)
      else
        var m := if t.k == 0 then s.flag[0] else t.m;
        if t.k + 1 < n then t.(k := t.k + 1, m := m) else t.(phase := Ticket, m := m)
    case Rescan =>
      if t.k >= n then t
      else if t.k + 1 < n then t.(phase := Scan, k := t.k + 1, m := s.flag[t.k])
      else t.(phase := Ticket, m := s.flag[t.k])
    case Ticket => t.(phase := Leave)
    case Leave => t.(phase := AwaitChoose, k := 0)
    case AwaitChoose => if t.k >= n || s.choose[t.k] then t else t.(phase := CheckZero)
    case CheckZero => if t.k < n && s.flag[t.k] != 0 then t.(phase := CheckLess) else next
    case CheckLess =>
      if t.k < n && s.flag[t.k] < s.flag[i] then t.(phase := CheckZero)
      else if s.tie then t.(phase := CheckTie)
      else next
    case CheckTie =>
      if t.k < n && s.flag[t.k] == s.flag[i] && t.k < i then t.(phase := CheckZero) else next
    case Load => t.(phase := Store, c := s.visitantes)
    case Store => t.(phase := Release)
    case Release => t.(phase := Idle, rounds := t.rounds + 1)
    case Done => t
  }

  /** One step of thread i; a thread number out of range does nothing. */
  function Step(s: State, i: nat): State {
    if !Shaped(s) || i >= |s.th| then s
    else
      var t := s.th[i];
      var moved := s.(th := s.th[i := Advance(s, i)]);
      match t.phase
      case Idle => if t.rounds < s.vpm then moved.(choose := s.choose[i := true]) else moved
      case Ticket => moved.(flag := s.flag[i := 1 + t.m])
      case Leave => moved.(choose := s.choose[i := false])
      case Store => moved.(visitantes := t.c + 1)
      case Release => moved.(flag := s.flag[i := 0])
      case _ => moved
  }

  // ----- what a thread is doing -----

  predicate Scanning(t: Thread) { t.phase.Scan? || t.phase.Rescan? }

  predicate InDoorway(t: Thread) { Scanning(t) || t.phase.Ticket? || t.phase.Leave? }

  predicate Waiting(t: Thread) { t.phase in {AwaitChoose, CheckZero, CheckLess, CheckTie} }

  /** Between the end of the wait loop and the release. */
  predicate Critical(t: Thread) { t.phase in {Load, Store, Release} }

  /** t has finished waiting for thread j in this round. */
  predicate Passed(t: Thread, j: nat) { Critical(t) || (Waiting(t) && j < t.k) }

  /** t has seen choose[j] == 0 in this round. */
  predicate SawChoose(t: Thread, j: nat) {
    Passed(t, j) || (t.phase in {CheckZero, CheckLess, CheckTie} && t.k == j)
  }

  predicate Ahead(tie: bool, fi: nat, i: nat, fj: nat, j: nat) {
    fi < fj || (fi == fj && (tie ==> i < j))
  }

  // ----- the invariant -----

  predicate OwnOk(s: State, i: nat)
    requires Shaped(s) && i < |s.th|
  {
    var t := s.th[i];
    && s.choose[i] == InDoorway(t)
    && (s.flag[i] > 0 <==> t.phase == Leave || Waiting(t) || Critical(t))
    && (Scanning(t) || Waiting(t) ==> t.k < |s.th|)
    && (t.phase == Rescan ==> t.k > 0)
    && (t.phase == CheckTie ==> s.tie)
    && t.rounds <= s.vpm
    && (t.phase == Done ==> t.rounds == s.vpm)
    && (t.phase !in {Idle, Done} ==> t.rounds < s.vpm)
  }

  /** A doorway that j entered after i saw it outside takes a larger ticket than i's, and a larger ticket
      that j is about to read again cannot be given up before i's. */
  predicate DoorwayOk(s: State, i: nat, j: nat)
    requires Shaped(s) && i < |s.th| && j < |s.th|
  {
    var ti, tj := s.th[i], s.th[j];
    SawChoose(ti, j) ==>
      && ((Scanning(tj) && i < tj.k) || tj.phase == Ticket ==> s.flag[i] <= tj.m)
      && (tj.phase == Rescan && i < tj.k < |s.flag| ==> s.flag[i] < s.flag[tj.k])
  }

  /** i has passed j only if it is ahead of j. */
  predicate WaitOk(s: State, i: nat, j: nat)
    requires Shaped(s) && i < |s.th| && j < |s.th|
  {
    && (Passed(s.th[i], j) ==> s.flag[j] == 0 || Ahead(s.tie, s.flag[i], i, s.flag[j], j))
    && (s.th[i].phase == CheckTie && s.th[i].k == j ==> s.flag[j] == 0 || s.flag[i] <= s.flag[j])
  }

  /** What holds between thread i and another thread j. */
  predicate PairOk(s: State, i: nat, j: nat)
    requires Shaped(s) && i < |s.th| && j < |s.th|
  {
    DoorwayOk(s, i, j) && WaitOk(s, i, j)
  }

  ghost predicate Inv(s: State) {
    && Shaped(s)
    && (forall i :: 0 <= i < |s.th| ==> OwnOk(s, i))
    && (forall i, j :: 0 <= i < |s.th| && 0 <= j < |s.th| && i != j ==> PairOk(s, i, j))
  }

  lemma OwnKept(s: State, t: nat, i: nat)
    requires Inv(s) && i < |s.th|
    ensures Shaped(Step(s, t)) && |Step(s, t).th| == |s.th| && OwnOk(Step(s, t), i)
  {
    assert OwnOk(s, i);
  }

  /** Thread i moves: it sees j outside the doorway only when j is. */
  lemma DoorwayKeptByFirst(s: State, i: nat, j: nat)
    requires Shaped(s) && i < |s.th| && j < |s.th| && i != j
    requires OwnOk(s, i) && OwnOk(s, j) && DoorwayOk(s, i, j)
    ensures DoorwayOk(Step(s, i), i, j)
  {
    var s' := Step(s, i);
    assert s'.th[j] == s.th[j] && s'.th[i] == Advance(s, i);
    assert SawChoose(s'.th[i], j) ==> s'.flag == s.flag && (SawChoose(s.th[i], j) || !s.choose[j]);
  }

  /** Thread i moves: it passes j only after reading something that puts it ahead of j. */
  lemma WaitKeptByFirst(s: State, i: nat, j: nat)
    requires Shaped(s) && i < |s.th| && j < |s.th| && i != j
    requires OwnOk(s, i) && WaitOk(s, i, j)
    ensures WaitOk(Step(s, i), i, j)
  {
    var s' := Step(s, i);
    assert s'.th[j] == s.th[j] && s'.flag[j] == s.flag[j] && s'.th[i] == Advance(s, i);
    match s.th[i].phase
    case CheckZero =>
    case CheckLess =>
    case CheckTie =>
    case _ =>
  }

  /** Thread j moves: a ticket it takes after i looked at it is larger than i's. */
  lemma DoorwayKeptBySecond(s: State, i: nat, j: nat)
    requires Shaped(s) && i < |s.th| && j < |s.th| && i != j
    requires OwnOk(s, j) && DoorwayOk(s, i, j)
    ensures DoorwayOk(Step(s, j), i, j)
  {
    var s' := Step(s, j);
    assert s'.th[i] == s.th[i] && s'.flag[i] == s.flag[i] && s'.th[j] == Advance(s, j);
    match s.th[j].phase
    case Scan =>
    case Rescan =>
    case _ =>
  }

  lemma WaitKeptBySecond(s: State, i: nat, j: nat)
    requires Shaped(s) && i < |s.th| && j < |s.th| && i != j
    requires OwnOk(s, j) && PairOk(s, i, j)
    ensures WaitOk(Step(s, j), i, j)
  {
    var s' := Step(s, j);
    assert s'.th[i] == s.th[i] && s'.flag[i] == s.flag[i];
  }

  /** A third thread moves: it cannot give up a ticket larger than i's before i does. */
  lemma PairKeptByThird(s: State, t: nat, i: nat, j: nat)
    requires Shaped(s) && i < |s.th| && j < |s.th| && t < |s.th| && i != j && t != i && t != j
    requires OwnOk(s, i) && OwnOk(s, t) && PairOk(s, i, j) && PairOk(s, t, i)
    ensures PairOk(Step(s, t), i, j)
  {
    var s' := Step(s, t);
    assert s'.th[i] == s.th[i] && s'.th[j] == s.th[j] && s'.flag[i] == s.flag[i] && s'.flag[j] == s.flag[j];
  }

  lemma PairKept(s: State, t: nat, i: nat, j: nat)
    requires Inv(s) && i < |s.th| && j < |s.th| && i != j
    ensures Shaped(Step(s, t)) && |Step(s, t).th| == |s.th| && PairOk(Step(s, t), i, j)
  {
    assert OwnOk(s, i) && OwnOk(s, j) && PairOk(s, i, j);
    if t == i {
      DoorwayKeptByFirst(s, i, j);
      WaitKeptByFirst(s, i, j);
    } else if t == j {
      DoorwayKeptBySecond(s, i, j);
      WaitKeptBySecond(s, i, j);
    } else if t < |s.th| {
      assert OwnOk(s, t) && PairOk(s, t, i);
      PairKeptByThird(s, t, i, j);
    }
  }

  lemma StepKeepsInv(s: State, t: nat)
    requires Inv(s)
    ensures Inv(Step(s, t))
  {
    forall i | 0 <= i < |s.th| ensures OwnOk(Step(s, t), i) { OwnKept(s, t, i); }
    forall i, j | 0 <= i < |s.th| && 0 <= j < |s.th| && i != j ensures PairOk(Step(s, t), i, j) {
      PairKept(s, t, i, j);
    }
  }

  ghost predicate Same(s: State, s': State) {
    s'.vpm == s.vpm && s'.tie == s.tie && |s'.th| == |s.th|
  }

  lemma ReachableInv(n: nat, vpm: nat, tie: bool, schedule: seq<nat>)
    ensures Inv(Exec(Step, Init(n, vpm, tie), schedule))
    ensures Same(Init(n, vpm, tie), Exec(Step, Init(n, vpm, tie), schedule))
  {
    var s0 := Init(n, vpm, tie);
    forall s: State, t: nat | Inv(s) && Same(s0, s) ensures Inv(Step(s, t)) && Same(s0, Step(s, t)) {
      StepKeepsInv(s, t);
    }
    InvariantHolds(Step, (s: State) => Inv(s) && Same(s0, s), s0, schedule);
  }

  // ----- mutual exclusion -----

  /** With the tie-break no reachable state has two threads between the wait loop and the release. */
  lemma MutualExclusion(n: nat, vpm: nat, schedule: seq<nat>, i: nat, j: nat)
    requires i < n && j < n && i != j
    ensures var s := Exec(Step, Init(n, vpm, true), schedule);
            |s.th| == n && !(Critical(s.th[i]) && Critical(s.th[j]))
  {
    var s := Exec(Step, Init(n, vpm, true), schedule);
    ReachableInv(n, vpm, true, schedule);
    assert OwnOk(s, i) && OwnOk(s, j) && PairOk(s, i, j) && PairOk(s, j, i);
  }

  /** As written, two threads inside at once hold equal tickets. */
  lemma EqualTicketsInside(n: nat, vpm: nat, schedule: seq<nat>, i: nat, j: nat)
    requires i < n && j < n && i != j
    ensures var s := Exec(Step, Init(n, vpm, false), schedule);
            |s.th| == |s.flag| == n &&
            (Critical(s.th[i]) && Critical(s.th[j]) ==> s.flag[i] == s.flag[j] > 0)
  {
    var s := Exec(Step, Init(n, vpm, false), schedule);
    ReachableInv(n, vpm, false, schedule);
    assert OwnOk(s, i) && OwnOk(s, j) && PairOk(s, i, j) && PairOk(s, j, i);
  }

  // ----- first come, first served -----

  /** i is past the doorway and j is not ahead of it: j will take, or has taken, a larger ticket. */
  predicate Behind(s: State, i: nat, j: nat)
    requires Shaped(s) && i < |s.th| && j < |s.th|
  {
    var ti, tj := s.th[i], s.th[j];
    && (Waiting(ti) || Critical(ti))
    && (tj.phase.Idle? || tj.phase.Done?
        || (Scanning(tj) && (tj.k <= i || s.flag[i] <= tj.m)
            && (tj.phase == Rescan && i < tj.k < |s.flag| ==> s.flag[i] < s.flag[tj.k]))
        || (tj.phase == Ticket && s.flag[i] <= tj.m)
        || ((tj.phase == Leave || Waiting(tj)) && s.flag[i] < s.flag[j] && !Passed(tj, i)))
  }

  lemma RoundsGrow(s: State, t: nat, i: nat)
    requires Inv(s) && i < |s.th|
    ensures Inv(Step(s, t)) && |Step(s, t).th| == |s.th|
    ensures s.th[i].rounds <= Step(s, t).th[i].rounds
    ensures t == i && s.th[i].phase == Release ==> s.th[i].rounds < Step(s, t).th[i].rounds
  {
    StepKeepsInv(s, t);
  }

  lemma BehindKept(s: State, t: nat, i: nat, j: nat)
    requires Inv(s) && i < |s.th| && j < |s.th| && i != j
    requires Behind(s, i, j) && !(t == i && s.th[i].phase == Release)
    ensures Inv(Step(s, t)) && |Step(s, t).th| == |s.th|
    ensures Behind(Step(s, t), i, j) && Step(s, t).th[j].rounds == s.th[j].rounds
  {
    StepKeepsInv(s, t);
    assert OwnOk(s, i) && OwnOk(s, j) && PairOk(s, j, i);
    if t == i {
      BehindByFirst(s, i, j);
    } else if t == j {
      BehindBySecond(s, i, j);
    } else if t < |s.th| {
      assert OwnOk(s, t) && PairOk(s, t, i);
      BehindByThird(s, t, i, j);
    }
  }

  lemma BehindByFirst(s: State, i: nat, j: nat)
    requires Shaped(s) && i < |s.th| && j < |s.th| && i != j && OwnOk(s, i)
    requires Behind(s, i, j) && s.th[i].phase != Release
    ensures Behind(Step(s, i), i, j) && Step(s, i).th[j] == s.th[j]
  {
    assert Step(s, i).flag == s.flag;
  }

  lemma BehindBySecond(s: State, i: nat, j: nat)
    requires Shaped(s) && i < |s.th| && j < |s.th| && i != j && OwnOk(s, i) && OwnOk(s, j)
    requires Behind(s, i, j) && WaitOk(s, j, i)
    ensures Behind(Step(s, j), i, j) && Step(s, j).th[j].rounds == s.th[j].rounds
  {
    var s' := Step(s, j);
    assert s'.th[i] == s.th[i] && s'.flag[i] == s.flag[i] && s'.th[j] == Advance(s, j);
  }

  lemma BehindByThird(s: State, t: nat, i: nat, j: nat)
    requires Shaped(s) && t < |s.th| && i < |s.th| && j < |s.th| && i != j && t != i && t != j
    requires OwnOk(s, i) && OwnOk(s, t) && PairOk(s, t, i) && Behind(s, i, j)
    ensures Behind(Step(s, t), i, j) && Step(s, t).th[j] == s.th[j]
  {
    var s' := Step(s, t);
    assert s'.th[i] == s.th[i] && s'.flag[i] == s.flag[i] && s'.flag[j] == s.flag[j];
  }

  /** A thread that has left the doorway is not overtaken, with or without the tie-break, by one that
      has not entered it yet: until the first finishes its round, the second neither enters the
      critical section nor completes a round. */
  lemma {:induction false} FirstComeFirstServed(s: State, schedule: seq<nat>, i: nat, j: nat)
    requires Inv(s) && i < |s.th| && j < |s.th| && i != j
    requires (Waiting(s.th[i]) || Critical(s.th[i])) && s.th[j].phase == Idle
    ensures var s' := Exec(Step, s, schedule);
      && Inv(s') && |s'.th| == |s.th| && s.th[i].rounds <= s'.th[i].rounds
      && (s'.th[i].rounds == s.th[i].rounds ==>
            Behind(s', i, j) && !Critical(s'.th[j]) && s'.th[j].rounds == s.th[j].rounds)
    decreases |schedule|
  {
    if schedule != [] {
      var before := schedule[..|schedule| - 1];
      var t := schedule[|schedule| - 1];
      FirstComeFirstServed(s, before, i, j);
      var s1 := Exec(Step, s, before);
      RoundsGrow(s1, t, i);
      if Step(s1, t).th[i].rounds == s.th[i].rounds {
        BehindKept(s1, t, i, j);
      }
    }
  }

  // ----- every visitor is counted -----

  function Served(t: Thread): nat { t.rounds + if t.phase == Release then 1 else 0 }

  function AllServed(th: seq<Thread>): seq<nat> {
    seq(|th|, i requires 0 <= i < |th| => Served(th[i]))
  }

  ghost predicate Counted(s: State) {
    && s.visitantes == Sum(AllServed(s.th))
    && forall i :: 0 <= i < |s.th| && s.th[i].phase == Store ==> s.th[i].c == s.visitantes
  }

  lemma OneInside(s: State, i: nat, j: nat)
    requires Inv(s) && (s.tie || |s.th| < 2) && i < |s.th| && j < |s.th| && Critical(s.th[i]) && Critical(s.th[j])
    ensures i == j
  {
    assert OwnOk(s, i) && OwnOk(s, j);
    assert i != j ==> PairOk(s, i, j) && PairOk(s, j, i);
  }

  /** What a step does to the counter. */
  lemma CountStep(s: State, t: nat)
    requires Shaped(s) && t < |s.th|
    ensures var s', th := Step(s, t), s.th[t];
      && Shaped(s') && |s'.th| == |s.th| && s'.th == s.th[t := s'.th[t]]
      && s'.visitantes == (if th.phase == Store then th.c + 1 else s.visitantes)
      && Served(s'.th[t]) == Served(th) + (if th.phase == Store then 1 else 0)
      && (s'.th[t].phase == Store ==> s'.th[t].c == s.visitantes)
  {
  }

  lemma CountedKept(s: State, t: nat)
    requires Inv(s) && (s.tie || |s.th| < 2) && Counted(s)
    ensures Counted(Step(s, t))
  {
    if t < |s.th| {
      var s' := Step(s, t);
      CountStep(s, t);
      assert AllServed(s'.th) == AllServed(s.th)[t := Served(s'.th[t])];
      SumUpdate(AllServed(s.th), t, Served(s'.th[t]));
      forall i | 0 <= i < |s'.th| && s'.th[i].phase == Store ensures s'.th[i].c == s'.visitantes {
        if s.th[t].phase == Store { OneInside(s, i, t); }
      }
    }
  }

  lemma ReachableCounted(n: nat, vpm: nat, tie: bool, schedule: seq<nat>)
    requires tie || n < 2
    ensures Counted(Exec(Step, Init(n, vpm, tie), schedule))
  {
    var s0 := Init(n, vpm, tie);
    SumConstant(AllServed(s0.th), 0);
    ReachableInv(n, vpm, tie, []);
    forall s: State, t: nat | Inv(s) && Same(s0, s) && Counted(s)
      ensures Inv(Step(s, t)) && Same(s0, Step(s, t)) && Counted(Step(s, t))
    {
      StepKeepsInv(s, t);
      CountedKept(s, t);
    }
    InvariantHolds(Step, (s: State) => Inv(s) && Same(s0, s) && Counted(s), s0, schedule);
  }

  /** At least d of the visits made have not been counted, nor will they be by a store under way. */
  ghost predicate Missing(s: State, d: nat) {
    && s.visitantes + d <= Sum(AllServed(s.th))
    && forall i :: 0 <= i < |s.th| && s.th[i].phase == Store ==> s.th[i].c + d <= Sum(AllServed(s.th))
  }

  lemma MissingKept(s: State, t: nat, d: nat)
    requires Shaped(s) && Missing(s, d)
    ensures Shaped(Step(s, t)) && Missing(Step(s, t), d)
  {
    if t < |s.th| {
      var s' := Step(s, t);
      CountStep(s, t);
      assert AllServed(s'.th) == AllServed(s.th)[t := Served(s'.th[t])];
      SumUpdate(AllServed(s.th), t, Served(s'.th[t]));
    }
  }

  lemma MissingForGood(s: State, schedule: seq<nat>, d: nat)
    requires Shaped(s) && Missing(s, d)
    ensures Missing(Exec(Step, s, schedule), d)
  {
    forall x: State, t: nat | Shaped(x) && Missing(x, d) ensures Shaped(Step(x, t)) && Missing(Step(x, t), d) {
      MissingKept(x, t, d);
    }
    InvariantHolds(Step, (x: State) => Shaped(x) && Missing(x, d), s, schedule);
  }

  predicate AllDone(s: State) { forall i :: 0 <= i < |s.th| ==> s.th[i].phase == Done }

  lemma AllServedAtTheEnd(n: nat, vpm: nat, tie: bool, schedule: seq<nat>)
    requires AllDone(Exec(Step, Init(n, vpm, tie), schedule))
    ensures Sum(AllServed(Exec(Step, Init(n, vpm, tie), schedule).th)) == n * vpm
  {
    var s := Exec(Step, Init(n, vpm, tie), schedule);
    ReachableInv(n, vpm, tie, schedule);
    forall i | 0 <= i < n ensures AllServed(s.th)[i] == vpm { assert OwnOk(s, i); }
    SumConstant(AllServed(s.th), vpm);
  }

  /** No visitor is counted twice, in either form of the loop. */
  lemma VisitorsAtMost(n: nat, vpm: nat, tie: bool, schedule: seq<nat>)
    ensures var s := Exec(Step, Init(n, vpm, tie), schedule);
            s.visitantes <= Sum(AllServed(s.th)) && (AllDone(s) ==> s.visitantes <= n * vpm)
  {
    MissingForGood(Init(n, vpm, tie), schedule, 0);
    if AllDone(Exec(Step, Init(n, vpm, tie), schedule)) { AllServedAtTheEnd(n, vpm, tie, schedule); }
  }

  /** With the tie-break, or with fewer than two threads, every completed run ends with
      visitantes == N * VPM. */
  lemma VisitorsExact(n: nat, vpm: nat, tie: bool, schedule: seq<nat>)
    requires tie || n < 2
    requires AllDone(Exec(Step, Init(n, vpm, tie), schedule))
    ensures Exec(Step, Init(n, vpm, tie), schedule).visitantes == n * vpm
  {
    ReachableCounted(n, vpm, tie, schedule);
    AllServedAtTheEnd(n, vpm, tie, schedule);
  }

  // ----- no reachable state is a trap -----

  /** An upper bound on the steps that `left` whole rounds take. */
  function Work(left: nat, n: nat): nat {
    if left == 0 then 0 else 6 * n + 10 + Work(left - 1, n)
  }

  /** Steps of the current round already taken. */
  function Taken(t: Thread, n: nat): nat {
    match t.phase
    case Idle => 0
    case Scan => 1 + 2 * t.k
    case Rescan => 2 + 2 * t.k
    case Ticket => 1 + 2 * n
    case Leave => 2 + 2 * n
    case AwaitChoose => 3 + 2 * n + 4 * t.k
    case CheckZero => 4 + 2 * n + 4 * t.k
    case CheckLess => 5 + 2 * n + 4 * t.k
    case CheckTie => 6 + 2 * n + 4 * t.k
    case Load => 3 + 6 * n
    case Store => 4 + 6 * n
    case Release => 5 + 6 * n
    case Done => 1
  }

  /** What thread i still has to do when nobody makes it wait. */
  function Rank(vpm: nat, n: nat, t: Thread): nat {
    var all := if t.rounds <= vpm then 1 + Work(vpm - t.rounds, n) else 0;
    if Taken(t, n) <= all then all - Taken(t, n) else 0
  }

  function Ranks(s: State): seq<nat> {
    seq(|s.th|, i requires 0 <= i < |s.th| => Rank(s.vpm, |s.th|, s.th[i]))
  }

  /** Nothing keeps thread i back: it is not in the wait loop, or everyone is outside the doorway and
      no other ticket is ahead of i's. */
  ghost predicate Free(s: State, i: nat)
    requires Shaped(s) && i < |s.th|
  {
    && s.th[i].phase != Done
    && (Waiting(s.th[i]) ==>
          && (forall j :: 0 <= j < |s.th| ==> !s.choose[j])
          && (forall j :: 0 <= j < |s.th| && s.flag[j] != 0 ==>
                s.flag[i] < s.flag[j] || (s.flag[i] == s.flag[j] && i <= j)))
  }

  lemma RankDrops(vpm: nat, n: nat, t: Thread, t': Thread)
    requires t.rounds <= vpm && t'.rounds <= vpm && Taken(t, n) <= 6 * n + 5
    requires Taken(t, n) > 0 ==> t.rounds < vpm
    requires || (t'.rounds == t.rounds && Taken(t, n) < Taken(t', n))
             || (t'.rounds == t.rounds + 1 && t'.phase == Idle && t.phase == Release)
    ensures Rank(vpm, n, t') < Rank(vpm, n, t)
  {
    if t.rounds < vpm {
      assert Work(vpm - t.rounds, n) == 6 * n + 10 + Work(vpm - t.rounds - 1, n);
    }
  }

  /** A free thread that is not in the wait loop moves forward. */
  lemma FreeMovesOutside(s: State, i: nat)
    requires Inv(s) && i < |s.th| && s.th[i].phase != Done && !Waiting(s.th[i])
    ensures Rank(s.vpm, |s.th|, Advance(s, i)) < Rank(s.vpm, |s.th|, s.th[i])
  {
    assert OwnOk(s, i);
    RankDrops(s.vpm, |s.th|, s.th[i], Advance(s, i));
  }

  /** In the wait loop too, in two steps when the ticket it compares with has just been given up. */
  lemma FreeMovesWaiting(s: State, i: nat)
    requires Inv(s) && i < |s.th| && Waiting(s.th[i]) && Free(s, i) && s.th[i].k < |s.th|
    ensures s.th[i].phase == CheckLess && s.flag[s.th[i].k] == 0 ==>
              var s1 := Step(s, i);
              Shaped(s1) && |s1.th| == |s.th| && Rank(s.vpm, |s.th|, Advance(s1, i)) < Rank(s.vpm, |s.th|, s.th[i])
    ensures !(s.th[i].phase == CheckLess && s.flag[s.th[i].k] == 0) ==>
              Rank(s.vpm, |s.th|, Advance(s, i)) < Rank(s.vpm, |s.th|, s.th[i])
  {
    assert OwnOk(s, i);
    if s.th[i].phase == CheckLess && s.flag[s.th[i].k] == 0 {
      RankDrops(s.vpm, |s.th|, s.th[i], Advance(Step(s, i), i));
    } else {
      RankDrops(s.vpm, |s.th|, s.th[i], Advance(s, i));
    }
  }

  lemma FreeMoves(s: State, i: nat) returns (s': State)
    requires Inv(s) && i < |s.th| && Free(s, i)
    ensures Reaches(Step, s, s') && Inv(s') && |s'.th| == |s.th| && s'.vpm == s.vpm
    ensures s'.th == s.th[i := s'.th[i]]
    ensures Rank(s.vpm, |s.th|, s'.th[i]) < Rank(s.vpm, |s.th|, s.th[i])
  {
    StepKeepsInv(s, i);
    ReachesSelf(Step, s);
    ReachesStep(Step, s, s, i);
    s' := Step(s, i);
    if !Waiting(s.th[i]) {
      FreeMovesOutside(s, i);
    } else {
      assert OwnOk(s, i);
      FreeMovesWaiting(s, i);
      if s.th[i].phase == CheckLess && s.flag[s.th[i].k] == 0 {
        StepKeepsInv(s', i);
        ReachesStep(Step, s, s', i);
        s' := Step(s', i);
      }
    }
  }

  /** Among the waiting threads one has the smallest (ticket, number). */
  lemma {:induction false} SmallestTicket(s: State, m: nat) returns (i: nat)
    requires Shaped(s) && m <= |s.th|
    requires exists k :: 0 <= k < m && s.flag[k] != 0
    ensures i < m && s.flag[i] != 0
    ensures forall j :: 0 <= j < m && s.flag[j] != 0 ==>
              s.flag[i] < s.flag[j] || (s.flag[i] == s.flag[j] && i <= j)
    decreases m
  {
    if exists k :: 0 <= k < m - 1 && s.flag[k] != 0 {
      i := SmallestTicket(s, m - 1);
      if s.flag[m - 1] != 0 && s.flag[m - 1] < s.flag[i] {
        i := m - 1;
      }
    } else {
      i := m - 1;
    }
  }

  lemma SomeFree(s: State) returns (i: nat)
    requires Inv(s) && !AllDone(s)
    ensures i < |s.th| && Free(s, i)
  {
    if k :| 0 <= k < |s.th| && s.th[k].phase != Done && !Waiting(s.th[k]) {
      i := k;
    } else {
      forall j | 0 <= j < |s.th| ensures !s.choose[j] && (s.flag[j] != 0 <==> s.th[j].phase != Done) {
        assert OwnOk(s, j);
      }
      i := SmallestTicket(s, |s.th|);
    }
  }

  /** Deadlock freedom, in both forms of the loop: every state a run can reach can be continued to a
      state in which all the threads have finished all their rounds. */
  lemma {:induction false} CanComplete(s: State) returns (s': State)
    requires Inv(s)
    ensures Reaches(Step, s, s') && AllDone(s')
    decreases Sum(Ranks(s))
  {
    if AllDone(s) {
      s' := s;
      ReachesSelf(Step, s);
    } else {
      var i := SomeFree(s);
      var s1 := FreeMoves(s, i);
      assert Ranks(s1) == Ranks(s)[i := Rank(s.vpm, |s.th|, s1.th[i])];
      SumUpdate(Ranks(s), i, Rank(s.vpm, |s.th|, s1.th[i]));
      s' := CanComplete(s1);
      ReachesTrans(Step, s, s1, s');
    }
  }

  /** With the tie-break, whatever the threads have done so far, they can still all finish, and then
      every one of the N * VPM visits has been counted. */
  lemma AnyRunCanFinish(n: nat, vpm: nat, schedule: seq<nat>) returns (rest: seq<nat>)
    ensures var s := Exec(Step, Init(n, vpm, true), schedule + rest);
            AllDone(s) && s.visitantes == n * vpm
  {
    var s0 := Init(n, vpm, true);
    ReachableInv(n, vpm, true, schedule);
    var s := CanComplete(Exec(Step, s0, schedule));
    rest :| Exec(Step, Exec(Step, s0, schedule), rest) == s;
    ExecConcat(Step, s0, schedule, rest);
    VisitorsExact(n, vpm, true, schedule + rest);
  }

  // ----- exactly when the loop as written excludes -----

  predicate BothInside(s: State, i: nat, j: nat) {
    i != j && i < |s.th| && j < |s.th| && Critical(s.th[i]) && Critical(s.th[j])
  }

  ghost predicate Excludes(n: nat, vpm: nat, tie: bool) {
    forall schedule: seq<nat>, i: nat, j: nat :: !BothInside(Exec(Step, Init(n, vpm, tie), schedule), i, j)
  }

  /** m is the largest of the first k tickets. */
  predicate Largest(flag: seq<nat>, k: nat, m: nat)
    requires 0 < k <= |flag|
  {
    (forall j :: 0 <= j < k ==> flag[j] <= m) && (exists j :: 0 <= j < k && flag[j] == m)
  }

  /** One slot of the scan, with one read or two. */
  lemma ScansOne(s: State, i: nat) returns (s': State)
    requires Shaped(s) && i < |s.th| && s.th[i].phase == Scan && s.th[i].k < |s.th|
    requires s.th[i].k > 0 ==> Largest(s.flag, s.th[i].k, s.th[i].m)
    ensures Reaches(Step, s, s') && |s'.th| == |s.th| && s' == s.(th := s.th[i := s'.th[i]])
    ensures s'.th[i].rounds == s.th[i].rounds && s'.th[i].c == s.th[i].c
    ensures Largest(s.flag, s.th[i].k + 1, s'.th[i].m)
    ensures if s.th[i].k + 1 < |s.th| then s'.th[i].phase == Scan && s'.th[i].k == s.th[i].k + 1
            else s'.th[i].phase == Ticket && s'.th[i].k == s.th[i].k
  {
    var k := s.th[i].k;
    ReachesSelf(Step, s);
    ReachesStep(Step, s, s, i);
    s' := Step(s, i);
    if s'.th[i].phase == Rescan {
      var s1 := s';
      ReachesStep(Step, s, s1, i);
      s' := Step(s1, i);
      assert s'.th == s.th[i := s'.th[i]];
      assert s'.th[i].m == s.flag[k];
    }
  }

  /** Alone in the scan, thread i comes out with the largest ticket. */
  lemma {:induction false} ScanAlone(s: State, i: nat) returns (s': State)
    requires Shaped(s) && i < |s.th| && s.th[i].phase == Scan && s.th[i].k < |s.th|
    requires s.th[i].k > 0 ==> Largest(s.flag, s.th[i].k, s.th[i].m)
    ensures Reaches(Step, s, s') && |s'.th| == |s.th| && s' == s.(th := s.th[i := s'.th[i]])
    ensures s'.th[i] == s.th[i].(phase := Ticket, k := s'.th[i].k, m := s'.th[i].m)
    ensures Largest(s.flag, |s.flag|, s'.th[i].m)
    decreases |s.th| - s.th[i].k
  {
    s' := ScansOne(s, i);
    if s'.th[i].phase == Scan {
      var s1 := s';
      s' := ScanAlone(s1, i);
      ReachesTrans(Step, s, s1, s');
    }
  }

  /** choose[id] = 0 after flag[id] = 1 + max(flag). */
  lemma WritesTicket(s: State, i: nat)
    requires Shaped(s) && i < |s.th| && s.th[i].phase == Ticket
    ensures Step(Step(s, i), i) ==
      s.(flag := s.flag[i := s.th[i].m + 1], choose := s.choose[i := false],
         th := s.th[i := s.th[i].(phase := AwaitChoose, k := 0)])
  {
    var s1 := Step(s, i);
    assert s1 == s.(flag := s.flag[i := s.th[i].m + 1], th := s.th[i := s.th[i].(phase := Leave)]);
  }

  /** s with thread i in the doorway, before the scan. */
  function Choosing(s: State, i: nat): State
    requires Shaped(s) && i < |s.th|
  {
    s.(choose := s.choose[i := true], th := s.th[i := s.th[i].(phase := Scan, k := 0)])
  }

  /** s with thread i out of the doorway and its ticket after m. */
  function Drawn(s: State, i: nat, m: nat): State
    requires Shaped(s) && i < |s.th|
  {
    s.(flag := s.flag[i := m + 1], th := s.th[i := s.th[i].(phase := AwaitChoose, k := 0, m := m)])
  }

  lemma DrawnAfterScan(s: State, i: nat, t: Thread)
    requires Shaped(s) && i < |s.th| && !s.choose[i] && t == s.th[i].(phase := Ticket, k := t.k, m := t.m)
    ensures var s2 := Choosing(s, i).(th := s.th[i := t]); Step(Step(s2, i), i) == Drawn(s, i, t.m)
  {
    var s2 := Choosing(s, i).(th := s.th[i := t]);
    WritesTicket(s2, i);
    assert s2.choose[i := false] == s.choose;
  }

  /** With nobody else moving, the doorway draws the number after the largest ticket, and nothing else of what
      the threads share is any different when it is over. */
  lemma DrawsTheNextNumber(s: State, i: nat) returns (m: nat)
    requires Shaped(s) && i < |s.th| && s.th[i].phase == Idle && s.th[i].rounds < s.vpm && !s.choose[i]
    ensures Reaches(Step, s, Drawn(s, i, m)) && Largest(s.flag, |s.flag|, m)
  {
    ReachesSelf(Step, s);
    ReachesStep(Step, s, s, i);
    var s1 := Choosing(s, i);
    assert Step(s, i) == s1;
    var s2 := ScanAlone(s1, i);
    ReachesTrans(Step, s, s1, s2);
    ReachesStep(Step, s, s2, i);
    ReachesStep(Step, s, Step(s2, i), i);
    m := s2.th[i].m;
    assert s2.th == s.th[i := s2.th[i]];
    DrawnAfterScan(s, i, s2.th[i]);
  }

  /** Alone in the scan with every ticket 0, thread i comes out with result 0. */
  lemma ScanOfZeros(s: State, i: nat) returns (s': State)
    requires Shaped(s) && i < |s.th| && s.th[i].phase == Scan && s.th[i].k == 0
    requires forall j :: 0 <= j < |s.th| ==> s.flag[j] == 0
    ensures Reaches(Step, s, s') && |s'.th| == |s.th| && s' == s.(th := s.th[i := s'.th[i]])
    ensures s'.th[i].phase == Ticket && s'.th[i].m == 0
  {
    s' := ScanAlone(s, i);
  }

  /** Without the tie-break, a thread whose ticket is 1 walks through the wait loop when nobody is in
      the doorway. */
  lemma {:induction false} WalkIn(s: State, i: nat) returns (s': State)
    requires Shaped(s) && i < |s.th| && !s.tie && s.flag[i] == 1
    requires s.th[i].phase in {AwaitChoose, CheckZero, CheckLess} && s.th[i].k < |s.th|
    requires s.th[i].phase == CheckLess ==> s.flag[s.th[i].k] != 0
    requires forall j :: 0 <= j < |s.th| ==> !s.choose[j]
    ensures Reaches(Step, s, s') && |s'.th| == |s.th| && s' == s.(th := s.th[i := s'.th[i]])
    ensures s'.th[i].phase == Load
    decreases |s.th| - s.th[i].k, if s.th[i].phase == AwaitChoose then 2 else if s.th[i].phase == CheckZero then 1 else 0
  {
    s' := Step(s, i);
    if s'.th[i].phase == Load {
      ReachesSelf(Step, s');
    } else {
      s' := WalkIn(s', i);
    }
    ReachesStepFirst(Step, s, i, s');
  }

  /** Threads 0 and 1 scan before either has written its ticket: both are about to write 1. */
  lemma BothScan(n: nat, vpm: nat) returns (s: State)
    requires n >= 2 && vpm >= 1
    ensures Reaches(Step, Init(n, vpm, false), s) && Shaped(s) && |s.th| == n && !s.tie
    ensures s.flag == seq(n, _ => 0) && s.choose == seq(n, _ => false)[0 := true][1 := true]
    ensures s.th[0].phase == s.th[1].phase == Ticket && s.th[0].m == s.th[1].m == 0
  {
    var s0 := Init(n, vpm, false);
    ReachesSelf(Step, s0);
    ReachesStep(Step, s0, s0, 0);
    ReachesStep(Step, s0, Step(s0, 0), 1);
    var s1 := Step(Step(s0, 0), 1);
    var s2 := ScanOfZeros(s1, 0);
    ReachesTrans(Step, s0, s1, s2);
    s := ScanOfZeros(s2, 1);
    ReachesTrans(Step, s0, s2, s);
  }

  /** ... and then both walk in. */
  lemma BothEnter(n: nat, vpm: nat) returns (s: State)
    requires n >= 2 && vpm >= 1
    ensures Reaches(Step, Init(n, vpm, false), s) && BothInside(s, 0, 1)
    ensures s.th[0].phase == s.th[1].phase == Load
  {
    var s0 := Init(n, vpm, false);
    var s1 := BothScan(n, vpm);
    var s2 := Step(Step(s1, 0), 1);
    var s3 := Step(Step(s2, 0), 1);
    ReachesStep(Step, s0, s1, 0);
    ReachesStep(Step, s0, Step(s1, 0), 1);
    ReachesStep(Step, s0, s2, 0);
    ReachesStep(Step, s0, Step(s2, 0), 1);
    var s4 := WalkIn(s3, 0);
    ReachesTrans(Step, s0, s3, s4);
    s := WalkIn(s4, 1);
    ReachesTrans(Step, s0, s4, s);
  }

  /** `panaderia` as written excludes in every run exactly when there is nobody to exclude; with the
      tie-break it always does. */
  lemma ExcludesIff(n: nat, vpm: nat, tie: bool)
    ensures Excludes(n, vpm, tie) <==> tie || n < 2 || vpm == 0
  {
    var s0 := Init(n, vpm, tie);
    if tie || n < 2 || vpm == 0 {
      forall schedule: seq<nat>, i: nat, j: nat ensures !BothInside(Exec(Step, s0, schedule), i, j) {
        ReachableInv(n, vpm, tie, schedule);
        if BothInside(Exec(Step, s0, schedule), i, j) {
          assert OwnOk(Exec(Step, s0, schedule), i);
          if tie { MutualExclusion(n, vpm, schedule, i, j); }
        }
      }
    } else {
      var s := BothEnter(n, vpm);
      var schedule: seq<nat> :| Exec(Step, s0, schedule) == s;
      assert BothInside(Exec(Step, s0, schedule), 0, 1);
    }
  }

  // ----- exactly when every visitor is counted -----

  ghost predicate CountsAll(n: nat, vpm: nat, tie: bool) {
    forall schedule: seq<nat> ::
      var s := Exec(Step, Init(n, vpm, tie), schedule);
      AllDone(s) ==> s.visitantes == n * vpm
  }

  lemma AtLoad(s: State, t: nat)
    requires Shaped(s) && t < |s.th| && s.th[t].phase == Load
    ensures Step(s, t) == s.(th := s.th[t := s.th[t].(phase := Store, c := s.visitantes)])
  {
  }

  lemma AtStore(s: State, t: nat)
    requires Shaped(s) && t < |s.th| && s.th[t].phase == Store
    ensures Step(s, t) == s.(visitantes := s.th[t].c + 1, th := s.th[t := s.th[t].(phase := Release)])
  {
  }

  /** Both load before either stores. */
  function BothStored(s: State): State
    requires |s.th| >= 2
  {
    var t0, t1 := s.th[0].(phase := Release, c := s.visitantes), s.th[1].(phase := Release, c := s.visitantes);
    s.(visitantes := s.visitantes + 1, th := s.th[0 := t0][1 := t1])
  }

  lemma BothStoreInTurn(s: State)
    requires Shaped(s) && |s.th| >= 2 && s.th[0].phase == s.th[1].phase == Load
    ensures Reaches(Step, s, BothStored(s))
  {
    ReachesSelf(Step, s);
    ReachesStep(Step, s, s, 0);
    AtLoad(s, 0);
    var s1 := Step(s, 0);
    ReachesStep(Step, s, s1, 1);
    AtLoad(s1, 1);
    var s2 := Step(s1, 1);
    ReachesStep(Step, s, s2, 0);
    AtStore(s2, 0);
    var s3 := Step(s2, 0);
    ReachesStep(Step, s, s3, 1);
    AtStore(s3, 1);
    assert Step(s3, 1).th == BothStored(s).th;
  }

  /** One of the two visits is lost. */
  lemma BothStoredMisses(s: State)
    requires Shaped(s) && |s.th| >= 2 && s.th[0].phase == s.th[1].phase == Load && Missing(s, 0)
    ensures Missing(BothStored(s), 1)
  {
    var s' := BothStored(s);
    var a := AllServed(s.th);
    var b := a[0 := a[0] + 1];
    assert Served(s'.th[0]) == a[0] + 1 && Served(s'.th[1]) == a[1] + 1;
    assert AllServed(s'.th) == b[1 := a[1] + 1];
    SumUpdate(a, 0, a[0] + 1);
    SumUpdate(b, 1, a[1] + 1);
  }

  /** ... for good. */
  lemma LosesOne(n: nat, vpm: nat) returns (schedule: seq<nat>)
    requires n >= 2 && vpm >= 1
    ensures var s := Exec(Step, Init(n, vpm, false), schedule); AllDone(s) && s.visitantes < n * vpm
  {
    var s0 := Init(n, vpm, false);
    var s1 := BothEnter(n, vpm);
    var first: seq<nat> :| Exec(Step, s0, first) == s1;
    ReachableInv(n, vpm, false, first);
    MissingForGood(s0, first, 0);
    var s2 := BothStored(s1);
    BothStoreInTurn(s1);
    BothStoredMisses(s1);
    var second: seq<nat> :| Exec(Step, s1, second) == s2;
    ExecConcat(Step, s0, first, second);
    ReachableInv(n, vpm, false, first + second);
    var s3 := CanComplete(s2);
    var third: seq<nat> :| Exec(Step, s2, third) == s3;
    ExecConcat(Step, s0, first + second, third);
    MissingForGood(s2, third, 1);
    schedule := first + second + third;
    AllServedAtTheEnd(n, vpm, false, schedule);
  }

  /** Every completed run counts all the visitors exactly when the lock excludes: with the tie-break, with
      fewer than two threads, or with nobody to count. */
  lemma CountsIff(n: nat, vpm: nat, tie: bool)
    ensures CountsAll(n, vpm, tie) <==> tie || n < 2 || vpm == 0
  {
    if tie || n < 2 || vpm == 0 {
      forall schedule: seq<nat> | AllDone(Exec(Step, Init(n, vpm, tie), schedule))
        ensures Exec(Step, Init(n, vpm, tie), schedule).visitantes == n * vpm
      {
        VisitorsAtMost(n, vpm, tie, schedule);
        if tie || n < 2 { VisitorsExact(n, vpm, tie, schedule); }
      }
    } else {
      var schedule := LosesOne(n, vpm);
    }
  }

  // ----- the program itself -----

  /** The shared arrays and counter of bati-juan.c, updated in place. */
  class Program {
    const vpm: nat
    const tie: bool
    const flag: array<nat>
    const choose: array<bool>
    const th: array<Thread>
    var visitantes: nat

    ghost predicate Valid()
      reads this
    {
      flag.Length == choose.Length == th.Length
    }

    ghost function View(): State
      reads this, flag, choose, th
    {
      State(vpm, tie, flag[..], choose[..], visitantes, th[..])
    }

    /** main: the arrays start at 0 and the n threads before their first round. */
    constructor (n: nat, vpm: nat, tie: bool)
      ensures Valid() && fresh(flag) && fresh(choose) && fresh(th)
      ensures View() == Init(n, vpm, tie)
    {
      this.vpm, this.tie := vpm, tie;
      flag := new nat[n](_ => 0);
      choose := new bool[n](_ => false);
      th := new Thread[n](_ => Thread(Idle, 0, 0, 0, 0));
      visitantes := 0;
    }

    /** choose[id] = 1; flag[id] = 1 + max(flag); choose[id] = 0 */
    method Doorway(i: nat)
      requires Valid() && i < th.Length && (th[i].phase.Idle? || InDoorway(th[i]))
      modifies flag, choose, th
      ensures View() == Step(old(View()), i)
    {
      var t := th[i];
      match t.phase {
        case Idle =>
          if t.rounds < vpm {
            choose[i] := true;
            th[i] := t.(phase := Scan, k := 0);
          } else {
            th[i] := t.(phase := Done);
          }
        case Scan =>
          if t.k < flag.Length {
            if t.k > 0 && flag[t.k] > t.m {
              th[i] := t.(phase := Rescan);
            } else {
              var result := if t.k == 0 then flag[0] else t.m;
              th[i] := if t.k + 1 < flag.Length then t.(k := t.k + 1, m := result) else t.(phase := Ticket, m := result);
            }
          }
        case Rescan =>
          if t.k < flag.Length {
            var result := flag[t.k];
            th[i] := if t.k + 1 < flag.Length
              then t.(phase := Scan, k := t.k + 1, m := result)
              else t.(phase := Ticket, m := result);
          }
        case Ticket =>
          flag[i] := 1 + t.m;
          th[i] := t.(phase := Leave);
        case Leave =>
          choose[i] := false;
          th[i] := t.(phase := AwaitChoose, k := 0);
      }
    }

    /** while (choose[j]); while (flag[j] != 0 && ...); */
    method Wait(i: nat)
      requires Valid() && i < th.Length && Waiting(th[i])
      modifies th
      ensures View() == Step(old(View()), i)
    {
      var t := th[i];
      var next := if t.k + 1 < th.Length then t.(phase := AwaitChoose, k := t.k + 1) else t.(phase := Load);
      match t.phase {
        case AwaitChoose =>
          if t.k < th.Length && !choose[t.k] {
            th[i] := t.(phase := CheckZero);
          }
        case CheckZero =>
          th[i] := if t.k < th.Length && flag[t.k] != 0 then t.(phase := CheckLess) else next;
        case CheckLess =>
          if t.k < th.Length && flag[t.k] < flag[i] {
            th[i] := t.(phase := CheckZero);
          } else {
            th[i] := if tie then t.(phase := CheckTie) else next;
          }
        case CheckTie =>
          th[i] := if t.k < th.Length && flag[t.k] == flag[i] && t.k < i then t.(phase := CheckZero) else next;
      }
    }

    /** visitantes = visitantes + 1; flag[id] = 0; */
    method Visit(i: nat)
      requires Valid() && i < th.Length && Critical(th[i])
      modifies this`visitantes, flag, th
      ensures View() == Step(old(View()), i)
    {
      var t := th[i];
      match t.phase {
        case Load =>
          th[i] := t.(phase := Store, c := visitantes);
        case Store =>
          visitantes := t.c + 1;
          th[i] := t.(phase := Release);
        case Release =>
          flag[i] := 0;
          th[i] := t.(phase := Idle, rounds := t.rounds + 1);
      }
    }

    /** One shared access of thread i. */
    method Access(i: nat)
      requires Valid() && i < th.Length
      modifies this`visitantes, flag, choose, th
      ensures View() == Step(old(View()), i)
    {
      if Waiting(th[i]) {
        Wait(i);
      } else if Critical(th[i]) {
        Visit(i);
      } else if th[i].phase != Done {
        Doorway(i);
      } else {
        assert View().th == View().th[i := View().th[i]];
      }
    }

    /** Any schedule of the threads keeps the invariant; with the tie-break, or one thread, a finished run
        has counted every visitor. */
    method Run(schedule: seq<nat>)
      requires Valid() && View() == Init(th.Length, vpm, tie)
      requires forall k :: 0 <= k < |schedule| ==> schedule[k] < th.Length
      modifies this`visitantes, flag, choose, th
      ensures View() == Exec(Step, old(View()), schedule) && Inv(View())
      ensures (tie || th.Length < 2) && AllDone(View()) ==> visitantes == th.Length * vpm
      ensures AllDone(View()) ==> visitantes <= th.Length * vpm
    {
      ghost var s0 := View();
      for k := 0 to |schedule|
        invariant View() == Exec(Step, s0, schedule[..k])
      {
        ExecOne(Step, s0, schedule[..k], schedule[k]);
        assert schedule[..k + 1] == schedule[..k] + [schedule[k]];
        Access(schedule[k]);
      }
      assert schedule[..|schedule|] == schedule;
      ReachableInv(th.Length, vpm, tie, schedule);
      VisitorsAtMost(th.Length, vpm, tie, schedule);
      if (tie || th.Length < 2) && AllDone(View()) {
        VisitorsExact(th.Length, vpm, tie, schedule);
      }
    }
  }
}
