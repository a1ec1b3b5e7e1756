/** Everybody who waits in `write_lock` or `read_lock` can be brought inside, although a signal may wake the
    wrong thread and `read_unlock` wakes nobody. */
module ReadersWritersProgress {
  import opened Counting
  import opened ReadersWriters
  import opened Runs

  /** Runs in which nobody wakes up for no reason: thread m.0 steps, and m.1 is whom it signals. */
  function RunOnly(s: State, m: (nat, nat)): State { Step(s, Run(m.0, m.1)) }

  lemma Go(s: State, t: nat, pick: nat)
    requires Inv(s) && t < |s.th| && CanRun(s, t, pick)
    ensures var s' := RunStep(s, t, pick);
      Reaches(RunOnly, s, s') && Inv(s') && |s'.th| == |s.th| && |s'.arr| == |s.arr|
  {
    ReachesSelf(RunOnly, s);
    ReachesStep(RunOnly, s, s, (t, pick));
    StepKeepsInv(s, Run(t, pick));
  }

  // ----- everybody comes to rest -----

  /** Holds neither the mutex nor the semaphore and is not inside. */
  predicate Resting(t: Thread) {
    t.phase.WIdle? || t.phase.WLock? || t.phase.WWaiting? || t.phase.RLock? || t.phase.RWaiting?
  }

  predicate Quiet(s: State) { forall t :: 0 <= t < |s.th| ==> Resting(s.th[t]) }

  function Ahead(i: nat, len: nat): nat { if i <= len then len - i else 0 }

  /** Steps a thread takes at most until it rests. */
  function Toil(t: Thread, len: nat): nat {
    match t.phase
    case WIdle | WLock | WWaiting | RLock | RWaiting => 0
    case WRegister => 2
    case WPost1 => 1
    case WSem => 7 + len
    case WTest => 6 + len
    case WPost3 => 5 + len
    case WFill => 4 + Ahead(t.i, len)
    case WLeave => 3
    case WSignal => 2
    case WUnlock => 1
    case WPost2 => 2
    case WSleep => 1
    case RSem => 11 + len
    case RTest => 10 + len
    case REnter => 9 + len
    case RPost2 => 8 + len
    case RSignal2 => 7 + len
    case RUnlock => 6 + len
    case RFirst => 5 + len
    case RScan => 4 + Ahead(t.i, len)
    case RSemOut => 3
    case RLeave => 2
    case RPost3 => 1
    case RPost1 => 3
    case RSignal1 => 2
    case RSleep => 1
  }

  function Toils(s: State): seq<nat> {
    seq(|s.th|, t requires 0 <= t < |s.th| => Toil(s.th[t], |s.arr|))
  }

  lemma ToilStep(s: State, t: nat, pick: nat)
    requires t < |s.th| && CanRun(s, t, pick) && !Resting(s.th[t])
    ensures Sum(Toils(RunStep(s, t, pick))) < Sum(Toils(s))
  {
    StepThreads(s, t, pick);
    var toil := Toil(After(s, t), |s.arr|);
    assert toil < Toil(s.th[t], |s.arr|);
    assert Toils(RunStep(s, t, pick)) == Toils(s)[t := toil];
    SumUpdate(Toils(s), t, toil);
  }

  /** Whoever does not rest can go on, or waits for the semaphore, whose holder can. */
  lemma BusyMoves(s: State) returns (t: nat, pick: nat)
    requires Inv(s) && !Quiet(s)
    ensures t < |s.th| && !Resting(s.th[t]) && CanRun(s, t, pick)
  {
    t :| 0 <= t < |s.th| && !Resting(s.th[t]);
    if (s.th[t].phase.WSem? || s.th[t].phase.RSem? || s.th[t].phase.RSemOut?) && s.sem == 0 {
      t := CountWitness(s.th, HoldsSem);
    }
    pick := Enabled(s, t);
  }

  lemma {:induction false} Settles(s: State) returns (s': State)
    requires Inv(s)
    ensures Reaches(RunOnly, s, s') && Inv(s') && Quiet(s') && |s'.th| == |s.th|
    decreases Sum(Toils(s))
  {
    if Quiet(s) {
      s' := s;
      ReachesSelf(RunOnly, s);
    } else {
      var t, pick := BusyMoves(s);
      Go(s, t, pick);
      ToilStep(s, t, pick);
      s' := Settles(RunStep(s, t, pick));
      ReachesTrans(RunOnly, s, RunStep(s, t, pick), s');
    }
  }

  // ----- one thread moves while the others rest -----

  predicate OthersRest(th: seq<Thread>, t: nat) {
    forall u :: 0 <= u < |th| && u != t ==> Resting(th[u])
  }

  predicate SomeWaits(th: seq<Thread>) { !NobodyWaits(th) }

  lemma Alone(s: State, t: nat)
    requires Inv(s) && t < |s.th| && OthersRest(s.th, t)
    ensures !HoldsSem(s.th[t]) ==> s.sem == 1
    ensures !HoldsMutex(s.th[t]) ==> s.mutexFree
    ensures !Reading(s.th[t]) ==> s.reading == 0
  {
    CountBounds(s.th, HoldsSem);
    CountBounds(s.th, HoldsMutex);
    CountBounds(s.th, Reading);
  }

  /** It is not held up, and the others go on resting. */
  lemma AloneGoes(s: State, t: nat) returns (pick: nat)
    requires Inv(s) && t < |s.th| && OthersRest(s.th, t) && !Waiting(s.th[t])
    ensures CanRun(s, t, pick)
    ensures var s' := RunStep(s, t, pick);
      && Reaches(RunOnly, s, s') && Inv(s') && |s'.th| == |s.th| && |s'.arr| == |s.arr|
      && OthersRest(s'.th, t) && s'.th[t] == After(s, t)
  {
    Alone(s, t);
    pick := Enabled(s, t);
    Go(s, t, pick);
    StepThreads(s, t, pick);
  }

  predicate Signals(s: State, t: nat)
    requires t < |s.th|
  {
    s.th[t].phase.RSignal1? || s.th[t].phase.RSignal2? || s.th[t].phase.WSignal?
  }

  lemma NobodyWoken(s: State, t: nat, pick: nat)
    requires t < |s.th| && !Signals(s, t)
    ensures RunStep(s, t, pick).th == s.th[t := After(s, t)]
    ensures !Waiting(s.th[t]) && !Waiting(After(s, t)) ==> SomeWaits(RunStep(s, t, pick).th) == SomeWaits(s.th)
  {
    var th' := s.th[t := After(s, t)];
    if !Waiting(s.th[t]) && !Waiting(After(s, t)) {
      assert forall k :: 0 <= k < |s.th| ==> Waiting(th'[k]) == Waiting(s.th[k]);
    }
  }

  // ----- what there is left to do -----

  /** A writer that is asleep is worth more than one that is awake, and that more than a sleeping reader. */
  function Weight(t: Thread): nat {
    match t.phase
    case WWaiting | WPost2 | WSleep => 4
    case WRegister | WPost1 | WLock | WSem | WTest | WPost3 | WFill | WLeave | WSignal => 2
    case RWaiting | RSleep => 1
    case _ => 0
  }

  function Weights(th: seq<Thread>): seq<nat> {
    seq(|th|, t requires 0 <= t < |th| => Weight(th[t]))
  }

  function Burden(s: State): nat { Sum(Weights(s.th)) }

  lemma {:induction false} SumBelow(a: seq<nat>, b: seq<nat>, k: nat)
    requires |a| == |b| && k < |a| && forall i :: 0 <= i < |a| ==> a[i] <= b[i]
    ensures Sum(a) <= Sum(b) - (b[k] - a[k])
    decreases |a|
  {
    if |a| > 1 {
      assert forall i :: 0 <= i < |a| - 1 ==> a[1..][i] == a[i + 1] && b[1..][i] == b[i + 1];
      SumBelow(a[1..], b[1..], if k == 0 then 0 else k - 1);
    }
  }

  lemma WeightMoves(th: seq<Thread>, t: nat, c: Thread)
    requires t < |th|
    ensures Sum(Weights(th[t := c])) == Sum(Weights(th)) - Weight(th[t]) + Weight(c)
  {
    assert Weights(th[t := c]) == Weights(th)[t := Weight(c)];
    SumUpdate(Weights(th), t, Weight(c));
  }

  /** Waking thread k takes its share away. */
  lemma WeightWoken(th: seq<Thread>, th': seq<Thread>, k: nat)
    requires |th'| == |th| && k < |th| && th'[k] == Woken(th[k])
    requires forall u :: 0 <= u < |th| ==> th'[u] == th[u] || th'[u] == Woken(th[u])
    ensures Sum(Weights(th')) <= Sum(Weights(th)) - (Weight(th[k]) - Weight(Woken(th[k])))
  {
    SumBelow(Weights(th'), Weights(th), k);
  }

  /** What a step that signals nobody, or the signal of a thread that leaves, does to the burden. */
  lemma BurdenStep(s: State, t: nat, pick: nat)
    requires t < |s.th| && CanRun(s, t, pick) && !Waiting(s.th[t]) && !s.th[t].phase.RSignal1?
    ensures Burden(RunStep(s, t, pick)) <=
            Burden(s) - Weight(s.th[t]) + Weight(After(s, t)) - if Signals(s, t) && SomeWaits(s.th) then 1 else 0
  {
    var th1, th' := s.th[t := After(s, t)], RunStep(s, t, pick).th;
    WeightMoves(s.th, t, After(s, t));
    StepThreads(s, t, pick);
    if Signals(s, t) {
      var k := t;
      if SomeWaits(s.th) {
        k := WhoWakes(s, t, pick);
      }
      WeightWoken(th1, th', k);
    } else {
      NobodyWoken(s, t, pick);
    }
  }

  lemma WhoWakes(s: State, t: nat, pick: nat) returns (k: nat)
    requires t < |s.th| && CanRun(s, t, pick) && Signals(s, t) && SomeWaits(s.th)
    ensures k < |s.th| && k != t && Waiting(s.th[k]) && RunStep(s, t, pick).th[k] == Woken(s.th[k])
  {
    k :| 0 <= k < |s.th| && Waiting(s.th[k]);
    if !(s.broadcast && !s.th[t].phase.RSignal1?) {
      k := pick;
    }
  }

  function PathLeft(t: Thread, len: nat): nat {
    match t.phase
    case WIdle => 11 + len
    case WRegister => 10 + len
    case WPost1 => 9 + len
    case WLock => 8 + len
    case RLock => 12 + len
    case _ => Toil(t, len)
  }

  /** A step that signals nobody, taken alone. */
  lemma SilentStep(s: State, t: nat) returns (s': State)
    requires Inv(s) && t < |s.th| && OthersRest(s.th, t) && !Waiting(s.th[t]) && !Signals(s, t) && !Waiting(After(s, t))
    ensures Reaches(RunOnly, s, s') && Inv(s') && |s'.th| == |s.th| && |s'.arr| == |s.arr|
    ensures OthersRest(s'.th, t) && s'.th == s.th[t := After(s, t)] && SomeWaits(s'.th) == SomeWaits(s.th)
    ensures Burden(s') <= Burden(s) - Weight(s.th[t]) + Weight(After(s, t))
  {
    var pick := AloneGoes(s, t);
    BurdenStep(s, t, pick);
    NobodyWoken(s, t, pick);
    s' := RunStep(s, t, pick);
  }

  // ----- a writer goes through -----

  predicate WriterPath(p: Phase) {
    match p
    case WRegister | WPost1 | WLock | WSem | WTest | WPost3 | WFill | WLeave | WSignal => true
    case _ => false
  }

  lemma WriterNext(s: State, t: nat)
    requires t < |s.th| && WriterPath(s.th[t].phase) && !s.th[t].phase.WSignal? && s.reading == 0
    ensures WriterPath(After(s, t).phase) && Weight(After(s, t)) == Weight(s.th[t])
    ensures PathLeft(After(s, t), |s.arr|) < PathLeft(s.th[t], |s.arr|)
  {
  }

  lemma WriterSignals(s: State, t: nat) returns (s': State)
    requires Inv(s) && t < |s.th| && OthersRest(s.th, t) && s.th[t].phase.WSignal?
    ensures Reaches(RunOnly, s, s') && Inv(s') && Quiet(s') && |s'.th| == |s.th|
    ensures Burden(s') <= Burden(s) - 2 - if SomeWaits(s.th) then 1 else 0
  {
    var pick := AloneGoes(s, t);
    BurdenStep(s, t, pick);
    var s1 := RunStep(s, t, pick);
    assert Burden(s1) <= Burden(s) - 2 - if SomeWaits(s.th) then 1 else 0;
    s' := WriterUnlocks(s1, t);
    ReachesTrans(RunOnly, s, s1, s');
  }

  /** Alone, it finds no reader, leaves, and wakes somebody if anybody sleeps. */
  lemma {:induction false} WriterThrough(s: State, t: nat) returns (s': State)
    requires Inv(s) && t < |s.th| && OthersRest(s.th, t) && WriterPath(s.th[t].phase)
    ensures Reaches(RunOnly, s, s') && Inv(s') && Quiet(s') && |s'.th| == |s.th|
    ensures Burden(s') <= Burden(s) - 2 - if SomeWaits(s.th) then 1 else 0
    decreases PathLeft(s.th[t], |s.arr|)
  {
    if s.th[t].phase.WSignal? {
      s' := WriterSignals(s, t);
    } else {
      Alone(s, t);
      WriterNext(s, t);
      var s1 := SilentStep(s, t);
      s' := WriterThrough(s1, t);
      ReachesTrans(RunOnly, s, s1, s');
    }
  }

  lemma WriterUnlocks(s: State, t: nat) returns (s': State)
    requires Inv(s) && t < |s.th| && OthersRest(s.th, t) && s.th[t].phase.WUnlock?
    ensures Reaches(RunOnly, s, s') && Inv(s') && Quiet(s') && |s'.th| == |s.th| && Burden(s') <= Burden(s)
  {
    var pick := AloneGoes(s, t);
    BurdenStep(s, t, pick);
    s' := RunStep(s, t, pick);
  }

  // ----- a reader goes through, or gives way to a writer -----

  predicate ReaderPath(p: Phase) {
    match p
    case RLock | RSem | RTest | REnter | RPost2 | RSignal2 => true
    case _ => false
  }

  predicate ReaderInside(p: Phase) {
    match p
    case RUnlock | RFirst | RScan | RSemOut | RLeave | RPost3 => true
    case _ => false
  }

  predicate NoWriters(th: seq<Thread>) { forall t :: 0 <= t < |th| ==> !Registered(th[t]) }

  lemma LeavingNext(s: State, t: nat)
    requires t < |s.th| && ReaderInside(s.th[t].phase)
    ensures var me := After(s, t);
      && !Signals(s, t) && !Waiting(s.th[t]) && !Waiting(me) && Weight(me) == Weight(s.th[t])
      && (if s.th[t].phase.RPost3? then Resting(me) else ReaderInside(me.phase) && Toil(me, |s.arr|) < Toil(s.th[t], |s.arr|))
  {
  }

  lemma {:induction false} ReaderLeaves(s: State, t: nat) returns (s': State)
    requires Inv(s) && t < |s.th| && OthersRest(s.th, t) && ReaderInside(s.th[t].phase)
    ensures Reaches(RunOnly, s, s') && Inv(s') && Quiet(s') && |s'.th| == |s.th| && Burden(s') <= Burden(s)
    decreases Toil(s.th[t], |s.arr|)
  {
    LeavingNext(s, t);
    s' := SilentStep(s, t);
    if !s.th[t].phase.RPost3? {
      var s1 := s';
      s' := ReaderLeaves(s1, t);
      ReachesTrans(RunOnly, s, s1, s');
    }
  }

  lemma ReaderNext(s: State, t: nat)
    requires t < |s.th| && ReaderPath(s.th[t].phase) && !s.th[t].phase.RSignal2? && s.writing == 0
    ensures ReaderPath(After(s, t).phase) && Weight(After(s, t)) == Weight(s.th[t])
    ensures PathLeft(After(s, t), |s.arr|) < PathLeft(s.th[t], |s.arr|)
  {
  }

  lemma ReaderSignals(s: State, t: nat) returns (s': State)
    requires Inv(s) && t < |s.th| && OthersRest(s.th, t) && s.th[t].phase.RSignal2?
    ensures Reaches(RunOnly, s, s') && Inv(s') && Quiet(s') && |s'.th| == |s.th|
    ensures Burden(s') <= Burden(s) - if SomeWaits(s.th) then 1 else 0
  {
    var pick := AloneGoes(s, t);
    BurdenStep(s, t, pick);
    s' := ReaderLeaves(RunStep(s, t, pick), t);
    ReachesTrans(RunOnly, s, RunStep(s, t, pick), s');
  }

  lemma {:induction false} ReaderThrough(s: State, t: nat) returns (s': State)
    requires Inv(s) && t < |s.th| && OthersRest(s.th, t) && ReaderPath(s.th[t].phase) && NoWriters(s.th)
    ensures Reaches(RunOnly, s, s') && Inv(s') && Quiet(s') && |s'.th| == |s.th|
    ensures Burden(s') <= Burden(s) - if SomeWaits(s.th) then 1 else 0
    decreases PathLeft(s.th[t], |s.arr|)
  {
    if s.th[t].phase.RSignal2? {
      s' := ReaderSignals(s, t);
    } else {
      NotWriting(s);
      ReaderNext(s, t);
      var s1 := SilentStep(s, t);
      s' := ReaderThrough(s1, t);
      ReachesTrans(RunOnly, s, s1, s');
    }
  }

  lemma NotWriting(s: State)
    requires Locks(s, TallyOf(s.th)) && NoWriters(s.th)
    ensures s.writing == 0
  {
    CountBounds(s.th, Registered);
  }

  predicate YieldPath(p: Phase) {
    match p
    case RLock | RSem | RTest | RPost1 | RSignal1 => true
    case _ => false
  }

  lemma YieldNext(s: State, t: nat)
    requires t < |s.th| && YieldPath(s.th[t].phase) && !s.th[t].phase.RSignal1? && s.writing != 0
    ensures YieldPath(After(s, t).phase) && Weight(After(s, t)) == Weight(s.th[t])
    ensures PathLeft(After(s, t), |s.arr|) < PathLeft(s.th[t], |s.arr|)
  {
  }

  lemma SomeWriting(s: State, w: nat)
    requires Locks(s, TallyOf(s.th)) && w < |s.th| && Registered(s.th[w])
    ensures s.writing > 0
  {
    CountTwo(s.th, Registered, w, w);
  }

  /** A reader that finds writers registered signals writer w and goes to sleep. */
  lemma {:induction false} ReaderYields(s: State, t: nat, w: nat) returns (s': State)
    requires Inv(s) && t < |s.th| && OthersRest(s.th, t) && YieldPath(s.th[t].phase)
    requires w < |s.th| && s.th[w].phase.WWaiting?
    ensures Reaches(RunOnly, s, s') && Inv(s') && Quiet(s') && |s'.th| == |s.th| && Burden(s') < Burden(s)
    decreases PathLeft(s.th[t], |s.arr|)
  {
    if s.th[t].phase.RSignal1? {
      s' := SignalsWriter(s, t, w);
    } else {
      SomeWriting(s, w);
      YieldNext(s, t);
      var s1 := SilentStep(s, t);
      s' := ReaderYields(s1, t, w);
      ReachesTrans(RunOnly, s, s1, s');
    }
  }

  /** The signal wakes writer w. */
  lemma BurdenSignal(s: State, t: nat, w: nat)
    requires t < |s.th| && s.th[t].phase.RSignal1? && w < |s.th| && s.th[w].phase.WWaiting?
    ensures Burden(RunStep(s, t, w)) <= Burden(s) - 1
  {
    WeightMoves(s.th, t, After(s, t));
    StepThreads(s, t, w);
    WeightWoken(s.th[t := After(s, t)], RunStep(s, t, w).th, w);
  }

  lemma SignalsWriter(s: State, t: nat, w: nat) returns (s': State)
    requires Inv(s) && t < |s.th| && OthersRest(s.th, t) && s.th[t].phase.RSignal1?
    requires w < |s.th| && s.th[w].phase.WWaiting?
    ensures Reaches(RunOnly, s, s') && Inv(s') && Quiet(s') && |s'.th| == |s.th| && Burden(s') < Burden(s)
  {
    Go(s, t, w);
    StepThreads(s, t, w);
    BurdenSignal(s, t, w);
    s' := ReaderSleeps(RunStep(s, t, w), t);
    ReachesTrans(RunOnly, s, RunStep(s, t, w), s');
  }

  lemma ReaderSleeps(s: State, t: nat) returns (s': State)
    requires Inv(s) && t < |s.th| && OthersRest(s.th, t) && s.th[t].phase.RSleep?
    ensures Reaches(RunOnly, s, s') && Inv(s') && Quiet(s') && |s'.th| == |s.th| && Burden(s') <= Burden(s)
  {
    var pick := AloneGoes(s, t);
    BurdenStep(s, t, pick);
    s' := RunStep(s, t, pick);
  }

  // ----- everybody gets through -----

  /** Nobody is inside and nobody waits: every thread is about to call write_lock or read_lock. */
  predicate AllOut(s: State) {
    forall t :: 0 <= t < |s.th| ==> s.th[t].phase.WIdle? || s.th[t].phase.RLock?
  }

  lemma WriterArrives(s: State, t: nat) returns (s': State)
    requires Inv(s) && Quiet(s) && t < |s.th| && s.th[t].phase.WIdle? && SomeWaits(s.th)
    ensures Reaches(RunOnly, s, s') && Inv(s') && Quiet(s') && |s'.th| == |s.th| && Burden(s') < Burden(s)
  {
    var pick := AloneGoes(s, t);
    BurdenStep(s, t, pick);
    NobodyWoken(s, t, pick);
    s' := WriterThrough(RunStep(s, t, pick), t);
    ReachesTrans(RunOnly, s, RunStep(s, t, pick), s');
  }

  lemma ReaderArrives(s: State, t: nat) returns (s': State)
    requires Inv(s) && Quiet(s) && t < |s.th| && s.th[t].phase.RLock? && SomeWaits(s.th)
    requires forall u :: 0 <= u < |s.th| ==> !s.th[u].phase.WLock?
    ensures Reaches(RunOnly, s, s') && Inv(s') && Quiet(s') && |s'.th| == |s.th| && Burden(s') < Burden(s)
  {
    if w: nat :| w < |s.th| && s.th[w].phase.WWaiting? {
      s' := ReaderYields(s, t, w);
    } else {
      s' := ReaderThrough(s, t);
    }
  }

  /** From rest somebody can always make the burden smaller: somebody is awake. */
  lemma Lighter(s: State) returns (s': State)
    requires Inv(s) && Quiet(s) && !AllOut(s)
    ensures Reaches(RunOnly, s, s') && Inv(s') && Quiet(s') && |s'.th| == |s.th| && Burden(s') < Burden(s)
  {
    if t: nat :| t < |s.th| && s.th[t].phase.WLock? {
      s' := WriterThrough(s, t);
    } else {
      var x :| 0 <= x < |s.th| && !s.th[x].phase.WIdle? && !s.th[x].phase.RLock?;
      assert Waiting(s.th[x]);
      var u :| 0 <= u < |s.th| && !Waiting(s.th[u]);
      if s.th[u].phase.WIdle? {
        s' := WriterArrives(s, u);
      } else {
        s' := ReaderArrives(s, u);
      }
    }
  }

  lemma {:induction false} RestGetsOut(s: State) returns (s': State)
    requires Inv(s) && Quiet(s)
    ensures Reaches(RunOnly, s, s') && Inv(s') && AllOut(s') && |s'.th| == |s.th|
    decreases Burden(s)
  {
    if AllOut(s) {
      s' := s;
      ReachesSelf(RunOnly, s);
    } else {
      var s1 := Lighter(s);
      s' := RestGetsOut(s1);
      ReachesTrans(RunOnly, s, s1, s');
    }
  }

  /** Everybody inside can leave and everybody waiting can get through its call and leave. */
  lemma EveryoneGetsThrough(s: State) returns (s': State)
    requires Inv(s)
    ensures Reaches(RunOnly, s, s') && Inv(s') && AllOut(s') && |s'.th| == |s.th|
  {
    var s1 := Settles(s);
    s' := RestGetsOut(s1);
    ReachesTrans(RunOnly, s, s1, s');
  }

  predicate Inside(t: Thread) { Writing(t) || Reading(t) }

  predicate Entering(p: Phase) {
    match p
    case WIdle | WRegister | WPost1 | WLock | WSem | WTest | RLock | RSem | RTest | REnter => true
    case _ => false
  }

  predicate ReaderEntering(p: Phase) { p.RLock? || p.RSem? || p.RTest? || p.REnter? }

  lemma EnteringNext(s: State, t: nat)
    requires t < |s.th| && Entering(s.th[t].phase) && s.reading == 0
    requires ReaderEntering(s.th[t].phase) ==> s.writing == 0
    ensures var me := After(s, t);
      && (Inside(me) || Entering(me.phase)) && !Waiting(me)
      && (ReaderEntering(me.phase) ==> ReaderEntering(s.th[t].phase))
      && PathLeft(me, |s.arr|) < PathLeft(s.th[t], |s.arr|)
  {
  }

  /** With nobody else about, a thread walks in. */
  lemma {:induction false} WalksIn(s: State, t: nat) returns (s': State)
    requires Inv(s) && t < |s.th| && OthersRest(s.th, t) && Entering(s.th[t].phase)
    requires ReaderEntering(s.th[t].phase) ==> NoWriters(s.th)
    ensures Reaches(RunOnly, s, s') && |s'.th| == |s.th| && Inside(s'.th[t])
    decreases PathLeft(s.th[t], |s.arr|)
  {
    Alone(s, t);
    if ReaderEntering(s.th[t].phase) { NotWriting(s); }
    EnteringNext(s, t);
    s' := SilentStep(s, t);
    if !Inside(s'.th[t]) {
      var s1 := s';
      s' := WalksIn(s1, t);
      ReachesTrans(RunOnly, s, s1, s');
    }
  }

  /** In both variants, without spurious wake-ups: from every reachable state every thread, whatever it waits
      for, can be brought inside. */
  lemma AnyoneCanEnter(broadcast: bool, len: nat, writers: seq<bool>, schedule: seq<Action>, t: nat)
    returns (rest: seq<(nat, nat)>)
    requires len > 0 && t < |writers|
    ensures var s := Exec(RunOnly, Exec(Step, Init(broadcast, len, writers), schedule), rest);
            |s.th| == |writers| && Inside(s.th[t])
  {
    ReachableInv(broadcast, len, writers, schedule);
    var s := Exec(Step, Init(broadcast, len, writers), schedule);
    var s1 := EveryoneGetsThrough(s);
    var s2 := WalksIn(s1, t);
    ReachesTrans(RunOnly, s, s1, s2);
    rest :| Exec(RunOnly, s, rest) == s2;
  }
}
