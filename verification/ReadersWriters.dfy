/** The readers/writers lock of `read_write.c` and its client `parnas.c`.

    The lock is a mutex, a semaphore around the two counters and one condition variable with its set
    of waiting threads.  `broadcast` tells the two variants apart: the write-priority one broadcasts
    at the end of `read_lock` and in `write_unlock` where the fifo one signals.  Writers fill the
    shared array cell by cell, readers scan it cell by cell. */
module ReadersWriters {
  import opened Runs
  import opened Counting

  datatype Phase =
    // write_lock
    | WIdle         // before sem_wait
    | WRegister     // writing++
    | WPost1        // sem_post
    | WLock         // pthread_mutex_lock, and again on return from pthread_cond_wait
    | WSem          // sem_wait
    | WTest         // while (reading)
    | WPost2        // sem_post inside the loop
    | WSleep        // pthread_cond_wait: give up the mutex and wait
    | WWaiting
    | WPost3        // sem_post after the loop
    // escritor, write_unlock
    | WFill         // arr[i] = num
    | WLeave        // writing--
    | WSignal
    | WUnlock       // pthread_mutex_unlock
    // read_lock
    | RLock
    | RSem
    | RTest         // while (writing)
    | RPost1
    | RSignal1      // pthread_cond_signal
    | RSleep
    | RWaiting
    | REnter        // reading++
    | RPost2
    | RSignal2
    | RUnlock
    // lector, read_unlock
    | RFirst        // v = arr[0]
    | RScan         // arr[i] != v
    | RSemOut
    | RLeave        // reading--
    | RPost3

  datatype Thread = Thread(phase: Phase, num: nat, i: nat, v: nat)

  datatype State = State(
    broadcast: bool, mutexFree: bool, sem: nat, reading: int, writing: int,
    arr: seq<nat>, errors: nat, th: seq<Thread>)

  /** Run(t, pick): thread t takes its next step; pick is the thread woken if that step signals.
      Spurious(t): a waiting thread wakes up for no reason. */
  datatype Action = Run(t: nat, pick: nat) | Spurious(t: nat)

  function Start(writer: bool, num: nat): Thread { Thread(if writer then WIdle else RLock, num, 0, 0) }

  function Init(broadcast: bool, len: nat, writers: seq<bool>): State {
    State(broadcast, true, 1, 0, 0, seq(len, _ => 0), 0,
          seq(|writers|, t requires 0 <= t < |writers| => Start(writers[t], t)))
  }

  predicate Waiting(t: Thread) { t.phase.WWaiting? || t.phase.RWaiting? }

  function Woken(t: Thread): Thread {
    if t.phase.WWaiting? then t.(phase := WLock)
    else if t.phase.RWaiting? then t.(phase := RLock)
    else t
  }

  function WakeAll(th: seq<Thread>): seq<Thread> {
    seq(|th|, k requires 0 <= k < |th| => Woken(th[k]))
  }

  predicate NobodyWaits(th: seq<Thread>) { forall k :: 0 <= k < |th| ==> !Waiting(th[k]) }

  /** Can thread t take its next step now? */
  predicate CanRun(s: State, t: nat, pick: nat)
    requires t < |s.th|
  {
    match s.th[t].phase
    case WIdle => s.sem > 0
    case WLock => s.mutexFree
    case WSem => s.sem > 0
    case RLock => s.mutexFree
    case RSem => s.sem > 0
    case RSemOut => s.sem > 0
    case WWaiting => false
    case RWaiting => false
    case RSignal1 => NobodyWaits(s.th) || (pick < |s.th| && Waiting(s.th[pick]))
    case RSignal2 => s.broadcast || NobodyWaits(s.th) || (pick < |s.th| && Waiting(s.th[pick]))
    case WSignal => s.broadcast || NobodyWaits(s.th) || (pick < |s.th| && Waiting(s.th[pick]))
    case _ => true
  }

  /** The thread's own state after its step. */
  function After(s: State, t: nat): Thread
    requires t < |s.th|
  {
    var me := s.th[t];
    match me.phase
    case WIdle => me.(phase := WRegister)
    case WRegister => me.(phase := WPost1)
    case WPost1 => me.(phase := WLock)
    case WLock => me.(phase := WSem)
    case WSem => me.(phase := WTest)
    case WTest => me.(phase := if s.reading != 0 then WPost2 else WPost3)
    case WPost2 => me.(phase := WSleep)
    case WSleep => me.(phase := WWaiting)
    case WWaiting => me
    case WPost3 => me.(phase := WFill, i := 0)
    case WFill => if me.i < |s.arr| then me.(i := me.i + 1) else me.(phase := WLeave)
    case WLeave => me.(phase := WSignal)
    case WSignal => me.(phase := WUnlock)
    case WUnlock => me.(phase := WIdle)
    case RLock => me.(phase := RSem)
    case RSem => me.(phase := RTest)
    case RTest => me.(phase := if s.writing != 0 then RPost1 else REnter)
    case RPost1 => me.(phase := RSignal1)
    case RSignal1 => me.(phase := RSleep)
    case RSleep => me.(phase := RWaiting)
    case RWaiting => me
    case REnter => me.(phase := RPost2)
    case RPost2 => me.(phase := RSignal2)
    case RSignal2 => me.(phase := RUnlock)
    case RUnlock => me.(phase := RFirst)
    case RFirst => me.(phase := RScan, i := 1, v := if s.arr != [] then s.arr[0] else 0)
    case RScan => if me.i < |s.arr| && s.arr[me.i] == me.v then me.(i := me.i + 1) else me.(phase := RSemOut)
    case RSemOut => me.(phase := RLeave)
    case RLeave => me.(phase := RPost3)
    case RPost3 => me.(phase := RLock)
  }

  function Taken(phase: Phase): int {
    match phase
    case WIdle | WSem | RSem | RSemOut => -1
    case WPost1 | WPost2 | WPost3 | RPost1 | RPost2 | RPost3 => 1
    case _ => 0
  }

  function MutexAfter(phase: Phase, free: bool): bool {
    match phase
    case WLock | RLock => false
    case WSleep | RSleep | WUnlock | RUnlock => true
    case _ => free
  }

  function RunStep(s: State, t: nat, pick: nat): State
    requires t < |s.th|
  {
    var me := s.th[t];
    var th := s.th[t := After(s, t)];
    s.(mutexFree := MutexAfter(me.phase, s.mutexFree),
       sem := if s.sem + Taken(me.phase) >= 0 then s.sem + Taken(me.phase) else 0,
       reading := if me.phase.REnter? then s.reading + 1 else if me.phase.RLeave? then s.reading - 1 else s.reading,
       writing := if me.phase.WRegister? then s.writing + 1 else if me.phase.WLeave? then s.writing - 1 else s.writing,
       arr := if me.phase.WFill? && me.i < |s.arr| then s.arr[me.i := me.num] else s.arr,
       errors := if me.phase.RScan? && me.i < |s.arr| && s.arr[me.i] != me.v then s.errors + 1 else s.errors,
       th := match me.phase
             case RSignal1 => Signal(th, pick)
             case RSignal2 => if s.broadcast then WakeAll(th) else Signal(th, pick)
             case WSignal => if s.broadcast then WakeAll(th) else Signal(th, pick)
             case _ => th)
  }

  function Signal(th: seq<Thread>, pick: nat): seq<Thread> {
    if pick < |th| then th[pick := Woken(th[pick])] else th
  }

  function Step(s: State, a: Action): State {
    match a
    case Run(t, pick) => if t < |s.th| && CanRun(s, t, pick) then RunStep(s, t, pick) else s
    case Spurious(t) => if t < |s.th| then s.(th := Signal(s.th, t)) else s
  }

  // ----- where a thread is -----

  predicate HoldsMutex(t: Thread) {
    match t.phase
    case WSem | WTest | WPost2 | WSleep | WPost3 | WFill | WLeave | WSignal | WUnlock
       | RSem | RTest | RPost1 | RSignal1 | RSleep | REnter | RPost2 | RSignal2 | RUnlock => true
    case _ => false
  }

  predicate HoldsSem(t: Thread) {
    match t.phase
    case WRegister | WPost1 | WTest | WPost2 | WPost3 | RTest | RPost1 | REnter | RPost2 | RLeave | RPost3 => true
    case _ => false
  }

  /** Counted in `reading`. */
  predicate Reading(t: Thread) {
    match t.phase
    case RPost2 | RSignal2 | RUnlock | RFirst | RScan | RSemOut | RLeave => true
    case _ => false
  }

  /** Counted in `writing`. */
  predicate Registered(t: Thread) {
    match t.phase
    case WPost1 | WLock | WSem | WTest | WPost2 | WSleep | WWaiting | WPost3 | WFill | WLeave => true
    case _ => false
  }

  /** Has passed the loop of write_lock and not given the mutex back. */
  predicate Writing(t: Thread) {
    match t.phase
    case WPost3 | WFill | WLeave | WSignal | WUnlock => true
    case _ => false
  }

  /** Holds the mutex without being a writer inside. */
  predicate Passing(t: Thread) { HoldsMutex(t) && !Writing(t) }

  datatype Tally = Tally(mutex: nat, sem: nat, reading: nat, registered: nat, inside: nat, passing: nat)

  function TallyOf(th: seq<Thread>): Tally {
    Tally(Count(th, HoldsMutex), Count(th, HoldsSem), Count(th, Reading), Count(th, Registered), Count(th, Writing),
          Count(th, Passing))
  }

  predicate Shifted(y: Tally, y': Tally, a: Thread, b: Thread) {
    && y'.mutex == y.mutex - B(HoldsMutex(a)) + B(HoldsMutex(b))
    && y'.sem == y.sem - B(HoldsSem(a)) + B(HoldsSem(b))
    && y'.reading == y.reading - B(Reading(a)) + B(Reading(b))
    && y'.registered == y.registered - B(Registered(a)) + B(Registered(b))
    && y'.inside == y.inside - B(Writing(a)) + B(Writing(b))
    && y'.passing == y.passing - B(Passing(a)) + B(Passing(b))
  }

  /** The mutex and the semaphore have one holder, the counters count, and a writer inside keeps
      everybody else out. */
  predicate Locks(s: State, y: Tally) {
    && B(s.mutexFree) + y.mutex == 1
    && s.sem + y.sem == 1
    && s.reading == y.reading
    && s.writing == y.registered
    && (y.inside > 0 ==> y.reading == 0)
  }

  predicate Uniform(arr: seq<nat>) { forall j :: 0 <= j < |arr| ==> arr[j] == arr[0] }

  predicate Filling(t: Thread) { t.phase.WFill? }

  /** Has filled the array and not given the mutex back. */
  predicate Filled(t: Thread) { t.phase.WLeave? || t.phase.WSignal? || t.phase.WUnlock? }

  /** The cells a writer inside has filled hold its number, and all of them when it leaves. */
  predicate FillOk(arr: seq<nat>, t: Thread) {
    && (Filling(t) ==> t.i <= |arr| && forall j :: 0 <= j < t.i ==> arr[j] == t.num)
    && (Filled(t) ==> forall j :: 0 <= j < |arr| ==> arr[j] == t.num)
  }

  /** A reader holds the first cell, and has looked at all of them when it leaves. */
  predicate ScanOk(arr: seq<nat>, t: Thread) {
    && (t.phase.RScan? ==> arr != [] && 1 <= t.i <= |arr| && t.v == arr[0])
    && (t.phase.RSemOut? ==> arr != [] && t.i == |arr| && t.v == arr[0])
  }

  /** With no writer filling it the array is uniform, and nobody has read a torn one. */
  predicate Contents(s: State) {
    && |s.arr| > 0 && s.errors == 0
    && ((forall t :: 0 <= t < |s.th| ==> !Filling(s.th[t])) ==> Uniform(s.arr))
    && (forall t :: 0 <= t < |s.th| ==> FillOk(s.arr, s.th[t]))
    && (forall t :: 0 <= t < |s.th| ==> ScanOk(s.arr, s.th[t]))
  }

  /** Somebody other than x is not waiting on the condition variable. */
  predicate OtherAwake(th: seq<Thread>, x: nat) {
    exists u :: 0 <= u < |th| && u != x && !Waiting(th[u])
  }

  /** Whoever is about to wait leaves somebody awake. */
  predicate Wakeful(th: seq<Thread>) {
    && (forall x :: 0 <= x < |th| && (th[x].phase.RSleep? || th[x].phase.WPost2? || th[x].phase.WSleep?) ==> OtherAwake(th, x))
    && (forall x :: 0 <= x < |th| && (th[x].phase.RPost1? || th[x].phase.RSignal1?) ==> |th| > 1)
    && (|th| > 0 ==> exists u :: 0 <= u < |th| && !Waiting(th[u]))
  }

  ghost predicate Inv(s: State) {
    Locks(s, TallyOf(s.th)) && Contents(s) && Wakeful(s.th)
  }

  // ----- it is kept -----

  lemma Moves(th: seq<Thread>, t: nat, c: Thread)
    requires t < |th|
    ensures Shifted(TallyOf(th), TallyOf(th[t := c]), th[t], c)
  {
    CountUpdates(th, t, c);
  }

  lemma TallyNested(th: seq<Thread>)
    ensures TallyOf(th).inside + TallyOf(th).passing <= TallyOf(th).mutex
  {
    CountWithin(th, Writing, Passing, HoldsMutex);
  }

  /** Waking threads does not change who holds or has counted what. */
  lemma TallyWoken(th: seq<Thread>, th': seq<Thread>)
    requires |th'| == |th| && forall k :: 0 <= k < |th| ==> th'[k] == th[k] || th'[k] == Woken(th[k])
    ensures TallyOf(th') == TallyOf(th)
  {
    CountSame(th, th', HoldsMutex);
    CountSame(th, th', HoldsSem);
    CountSame(th, th', Reading);
    CountSame(th, th', Registered);
    CountSame(th, th', Writing);
    CountSame(th, th', Passing);
  }

  /** What a step does to the threads: its own move, and perhaps some waking up. */
  lemma StepThreads(s: State, t: nat, pick: nat)
    requires t < |s.th| && CanRun(s, t, pick)
    ensures var th1, th' := s.th[t := After(s, t)], RunStep(s, t, pick).th;
      && |th'| == |s.th|
      && (forall k :: 0 <= k < |s.th| ==> th'[k] == th1[k] || th'[k] == Woken(th1[k]))
      && th'[t] == After(s, t)
      && (s.th[t].phase.RSignal1? && !NobodyWaits(s.th) ==> pick < |s.th| && pick != t && !Waiting(th'[pick]))
  {
  }

  lemma RunKeepsLocks(s: State, t: nat, pick: nat, y: Tally, y': Tally)
    requires t < |s.th| && CanRun(s, t, pick) && Locks(s, y) && y.inside + y.passing <= y.mutex
    requires Shifted(y, y', s.th[t], After(s, t))
    requires HoldsMutex(s.th[t]) && !Writing(s.th[t]) ==> y.passing > 0
    ensures Locks(RunStep(s, t, pick), y')
  {
  }

  /** Two threads cannot both hold the mutex. */
  lemma OneHolder(s: State, t: nat, u: nat)
    requires Locks(s, TallyOf(s.th)) && t < |s.th| && u < |s.th| && HoldsMutex(s.th[t]) && HoldsMutex(s.th[u])
    ensures t == u
  {
    CountTwo(s.th, HoldsMutex, t, u);
  }

  /** A writer inside means that nobody is reading. */
  lemma WriterAlone(s: State, t: nat, u: nat)
    requires Locks(s, TallyOf(s.th)) && t < |s.th| && u < |s.th| && Writing(s.th[t])
    ensures !Reading(s.th[u]) && (Writing(s.th[u]) ==> u == t)
  {
    CountTwo(s.th, Writing, t, t);
    if Reading(s.th[u]) {
      CountTwo(s.th, Reading, u, u);
    }
    if Writing(s.th[u]) {
      OneHolder(s, t, u);
    }
  }

  lemma FillKeepsContents(s: State, t: nat, pick: nat)
    requires Inv(s) && t < |s.th| && s.th[t].phase.WFill?
    ensures Contents(RunStep(s, t, pick))
  {
    var s' := RunStep(s, t, pick);
    forall u | 0 <= u < |s.th| && u != t ensures !Writing(s.th[u]) && !Reading(s.th[u]) {
      WriterAlone(s, t, u);
    }
    assert FillOk(s.arr, s.th[t]);
    assert s'.th == s.th[t := After(s, t)];
    if s.th[t].i < |s.arr| {
      assert Filling(s'.th[t]);
    }
  }

  lemma ScanKeepsContents(s: State, t: nat, pick: nat)
    requires Inv(s) && t < |s.th| && (s.th[t].phase.RFirst? || s.th[t].phase.RScan?)
    ensures Contents(RunStep(s, t, pick))
  {
    var s' := RunStep(s, t, pick);
    forall u | 0 <= u < |s.th| ensures !Filling(s.th[u]) {
      if Filling(s.th[u]) { WriterAlone(s, u, t); }
    }
    assert ScanOk(s.arr, s.th[t]);
    assert s'.th == s.th[t := After(s, t)];
  }

  /** A thread that neither fills nor scans has moved on. */
  predicate Aside(before: Thread, after: Thread) {
    && !Filling(before) && (Filling(after) ==> after.i == 0)
    && (Filled(after) ==> Filled(before) && after.num == before.num)
    && !after.phase.RScan? && !after.phase.RSemOut?
  }

  lemma MovesAside(s: State, t: nat, pick: nat)
    requires t < |s.th| && CanRun(s, t, pick)
    requires !Filling(s.th[t]) && !s.th[t].phase.RFirst? && !s.th[t].phase.RScan?
    ensures var th' := RunStep(s, t, pick).th;
      |th'| == |s.th| && forall k :: 0 <= k < |s.th| ==> th'[k] == s.th[k] || Aside(s.th[k], th'[k])
  {
    StepThreads(s, t, pick);
    var th' := RunStep(s, t, pick).th;
    assert Aside(s.th[t], After(s, t));
    forall k | 0 <= k < |s.th| ensures th'[k] == s.th[k] || Aside(s.th[k], th'[k]) {
      if k != t { assert th'[k] == s.th[k] || th'[k] == Woken(s.th[k]); }
    }
  }

  lemma OtherKeepsContents(s: State, th: seq<Thread>)
    requires Contents(s) && |th| == |s.th|
    requires forall k :: 0 <= k < |th| ==> th[k] == s.th[k] || Aside(s.th[k], th[k])
    ensures Contents(s.(th := th))
  {
    if forall t :: 0 <= t < |th| ==> !Filling(th[t]) {
      assert forall t :: 0 <= t < |th| ==> !Filling(s.th[t]);
    }
    forall k | 0 <= k < |th| ensures FillOk(s.arr, th[k]) && ScanOk(s.arr, th[k]) {
      assert FillOk(s.arr, s.th[k]) && ScanOk(s.arr, s.th[k]);
    }
  }

  lemma RunKeepsContents(s: State, t: nat, pick: nat)
    requires Inv(s) && t < |s.th| && CanRun(s, t, pick)
    ensures Contents(RunStep(s, t, pick))
  {
    if s.th[t].phase.WFill? {
      FillKeepsContents(s, t, pick);
    } else if s.th[t].phase.RFirst? || s.th[t].phase.RScan? {
      ScanKeepsContents(s, t, pick);
    } else {
      MovesAside(s, t, pick);
      OtherKeepsContents(s, RunStep(s, t, pick).th);
    }
  }

  /** Who holds the mutex at the brink of waiting is the only thread that could start to wait. */
  lemma AwakeStays(s: State, t: nat, pick: nat, x: nat)
    requires Inv(s) && t < |s.th| && CanRun(s, t, pick) && x < |s.th| && OtherAwake(s.th, x)
    requires x == t || (HoldsMutex(s.th[x]) && x != t)
    ensures OtherAwake(RunStep(s, t, pick).th, x)
  {
    StepThreads(s, t, pick);
    var u :| 0 <= u < |s.th| && u != x && !Waiting(s.th[u]);
    if u == t && HoldsMutex(s.th[t]) {
      OneHolder(s, t, x);
    }
    assert !Waiting(RunStep(s, t, pick).th[u]);
  }

  /** A reader that has just signalled, and a writer that has just seen a reader, leave it awake. */
  lemma BrinkLeavesOther(s: State, t: nat, pick: nat)
    requires Inv(s) && t < |s.th| && CanRun(s, t, pick)
    requires var p := After(s, t).phase; p.RSleep? || p.WPost2? || p.WSleep?
    ensures OtherAwake(RunStep(s, t, pick).th, t)
  {
    StepThreads(s, t, pick);
    var th' := RunStep(s, t, pick).th;
    match s.th[t].phase
    case RSignal1 =>
      var u := if NobodyWaits(s.th) then (if t == 0 then 1 else 0) else pick;
      assert u != t && !Waiting(th'[u]);
    case WTest =>
      var u := CountWitness(s.th, Reading);
      assert u != t && !Waiting(th'[u]);
    case WPost2 =>
      AwakeStays(s, t, pick, t);
    case _ =>
  }

  lemma RunKeepsWakeful(s: State, t: nat, pick: nat)
    requires Inv(s) && t < |s.th| && CanRun(s, t, pick)
    ensures Wakeful(RunStep(s, t, pick).th)
  {
    StepThreads(s, t, pick);
    var th' := RunStep(s, t, pick).th;
    forall x | 0 <= x < |th'| && (th'[x].phase.RSleep? || th'[x].phase.WPost2? || th'[x].phase.WSleep?)
      ensures OtherAwake(th', x)
    {
      if x == t { BrinkLeavesOther(s, t, pick); } else { AwakeStays(s, t, pick, x); }
    }
    forall x | 0 <= x < |th'| && (th'[x].phase.RPost1? || th'[x].phase.RSignal1?) ensures |th'| > 1 {
      if x == t && s.th[t].phase.RTest? {
        var u := CountWitness(s.th, Registered);
        assert u != t;
      }
    }
    if Waiting(th'[t]) {
      AwakeStays(s, t, pick, t);
    }
  }

  lemma SpuriousKeepsInv(s: State, t: nat)
    requires Inv(s) && t < |s.th|
    ensures Inv(s.(th := Signal(s.th, t)))
  {
    var th' := Signal(s.th, t);
    TallyWoken(s.th, th');
    OtherKeepsContents(s, th');
    forall x | 0 <= x < |th'| && (th'[x].phase.RSleep? || th'[x].phase.WPost2? || th'[x].phase.WSleep?)
      ensures OtherAwake(th', x)
    {
      var u :| 0 <= u < |s.th| && u != x && !Waiting(s.th[u]);
      assert !Waiting(th'[u]);
    }
    assert !Waiting(th'[t]);
  }

  lemma StepKeepsInv(s: State, a: Action)
    requires Inv(s)
    ensures Inv(Step(s, a)) && |Step(s, a).th| == |s.th|
  {
    match a
    case Run(t, pick) =>
      if t < |s.th| && CanRun(s, t, pick) {
        var th1 := s.th[t := After(s, t)];
        Moves(s.th, t, After(s, t));
        TallyNested(s.th);
        StepThreads(s, t, pick);
        TallyWoken(th1, RunStep(s, t, pick).th);
        if Passing(s.th[t]) { CountTwo(s.th, Passing, t, t); }
        RunKeepsLocks(s, t, pick, TallyOf(s.th), TallyOf(th1));
        RunKeepsContents(s, t, pick);
        RunKeepsWakeful(s, t, pick);
      }
    case Spurious(t) =>
      if t < |s.th| { SpuriousKeepsInv(s, t); }
  }

  lemma NobodyIn(th: seq<Thread>)
    requires forall t :: 0 <= t < |th| ==> th[t].phase.WIdle? || th[t].phase.RLock?
    ensures TallyOf(th) == Tally(0, 0, 0, 0, 0, 0)
  {
    CountBounds(th, HoldsMutex);
    CountBounds(th, HoldsSem);
    CountBounds(th, Reading);
    CountBounds(th, Registered);
    CountBounds(th, Writing);
    CountBounds(th, Passing);
  }

  lemma InitInv(broadcast: bool, len: nat, writers: seq<bool>)
    requires len > 0
    ensures Inv(Init(broadcast, len, writers))
  {
    var th := Init(broadcast, len, writers).th;
    NobodyIn(th);
    if |th| > 0 { assert !Waiting(th[0]); }
  }

  lemma ReachableInv(broadcast: bool, len: nat, writers: seq<bool>, schedule: seq<Action>)
    requires len > 0
    ensures Inv(Exec(Step, Init(broadcast, len, writers), schedule))
    ensures |Exec(Step, Init(broadcast, len, writers), schedule).th| == |writers|
  {
    InitInv(broadcast, len, writers);
    forall s: State, a: Action | Inv(s) && |s.th| == |writers| ensures Inv(Step(s, a)) && |Step(s, a).th| == |writers| {
      StepKeepsInv(s, a);
    }
    InvariantHolds(Step, (s: State) => Inv(s) && |s.th| == |writers|, Init(broadcast, len, writers), schedule);
  }

  // ----- what the lock promises -----

  /** A writer inside excludes all readers and all other writers. */
  lemma WriterExcludesAll(broadcast: bool, len: nat, writers: seq<bool>, schedule: seq<Action>, t: nat, u: nat)
    requires len > 0 && t < |writers| && u < |writers| && t != u
    ensures var s := Exec(Step, Init(broadcast, len, writers), schedule);
            |s.th| == |writers| && (Writing(s.th[t]) ==> !Writing(s.th[u]) && !Reading(s.th[u]))
  {
    ReachableInv(broadcast, len, writers, schedule);
    var s := Exec(Step, Init(broadcast, len, writers), schedule);
    if Writing(s.th[t]) { WriterAlone(s, t, u); }
  }

  /** The array is uniform whenever no writer is inside, and "error de lectura" is never printed, for
      any array length, any number of readers and writers, and both variants. */
  lemma NoTornRead(broadcast: bool, len: nat, writers: seq<bool>, schedule: seq<Action>)
    requires len > 0
    ensures var s := Exec(Step, Init(broadcast, len, writers), schedule);
      && s.errors == 0
      && ((forall t :: 0 <= t < |s.th| ==> !Writing(s.th[t])) ==> Uniform(s.arr))
  {
    ReachableInv(broadcast, len, writers, schedule);
    var s := Exec(Step, Init(broadcast, len, writers), schedule);
    assert forall t :: 0 <= t < |s.th| && Filling(s.th[t]) ==> Writing(s.th[t]);
  }

  /** A writer that leaves has put its number in every cell. */
  lemma WriterFillsAll(broadcast: bool, len: nat, writers: seq<bool>, schedule: seq<Action>, t: nat)
    requires len > 0 && t < |writers|
    ensures var s := Exec(Step, Init(broadcast, len, writers), schedule);
      |s.th| == |writers| && (s.th[t].phase.WLeave? ==> forall j :: 0 <= j < |s.arr| ==> s.arr[j] == s.th[t].num)
  {
    ReachableInv(broadcast, len, writers, schedule);
    var s := Exec(Step, Init(broadcast, len, writers), schedule);
    assert FillOk(s.arr, s.th[t]);
  }

  /** A reader that leaves has looked at every cell, and its datum is what all of them still hold. */
  lemma ReaderReadsAll(broadcast: bool, len: nat, writers: seq<bool>, schedule: seq<Action>, t: nat)
    requires len > 0 && t < |writers|
    ensures var s := Exec(Step, Init(broadcast, len, writers), schedule);
      |s.th| == |writers| &&
      (s.th[t].phase.RSemOut? ==> s.th[t].i == |s.arr| && forall j :: 0 <= j < |s.arr| ==> s.arr[j] == s.th[t].v)
  {
    ReachableInv(broadcast, len, writers, schedule);
    var s := Exec(Step, Init(broadcast, len, writers), schedule);
    assert ScanOk(s.arr, s.th[t]);
    if s.th[t].phase.RSemOut? {
      forall u | 0 <= u < |s.th| ensures !Filling(s.th[u]) {
        if Filling(s.th[u]) { WriterAlone(s, u, t); }
      }
    }
  }

  // ----- whom a signal wakes -----

  /** Back from pthread_cond_wait, about to lock the mutex again; nothing else has changed. */
  predicate Relocks(before: Thread, after: Thread) {
    && (before.phase.WWaiting? ==> after == before.(phase := WLock))
    && (before.phase.RWaiting? ==> after == before.(phase := RLock))
  }

  predicate IsBroadcast(s: State, t: nat)
    requires t < |s.th|
  {
    s.broadcast && (s.th[t].phase.WSignal? || s.th[t].phase.RSignal2?)
  }

  predicate IsSignal(s: State, t: nat)
    requires t < |s.th|
  {
    s.th[t].phase.RSignal1? || (!s.broadcast && (s.th[t].phase.WSignal? || s.th[t].phase.RSignal2?))
  }

  /** The broadcasts of the write-priority variant leave nobody waiting: everybody who waited is about to lock
      the mutex again, and nobody else has moved. */
  lemma BroadcastWakesAll(s: State, t: nat, pick: nat)
    requires t < |s.th| && CanRun(s, t, pick) && IsBroadcast(s, t)
    ensures var th' := Step(s, Run(t, pick)).th;
      && |th'| == |s.th| && NobodyWaits(th')
      && (forall k :: 0 <= k < |s.th| && Waiting(s.th[k]) ==> Relocks(s.th[k], th'[k]))
      && (forall k :: 0 <= k < |s.th| && k != t && !Waiting(s.th[k]) ==> th'[k] == s.th[k])
  {
    var th' := Step(s, Run(t, pick)).th;
    assert forall k :: 0 <= k < |s.th| && k != t ==> th'[k] == Woken(s.th[k]);
  }

  predicate IsWaiting(t: Thread) { Waiting(t) }

  /** A signal wakes exactly one waiting thread, if there is one, and nobody else moves. */
  lemma SignalWakesOne(s: State, t: nat, pick: nat)
    requires t < |s.th| && CanRun(s, t, pick) && IsSignal(s, t)
    ensures var th' := Step(s, Run(t, pick)).th;
      && |th'| == |s.th|
      && Count(th', IsWaiting) == Count(s.th, IsWaiting) - (if NobodyWaits(s.th) then 0 else 1)
      && (forall k :: 0 <= k < |s.th| && k != t && th'[k] != s.th[k] ==> k == pick && Waiting(s.th[k]) && Relocks(s.th[k], th'[k]))
  {
    CountUpdate(s.th, t, After(s, t), IsWaiting);
    var th1 := s.th[t := After(s, t)];
    if !NobodyWaits(s.th) {
      CountUpdate(th1, pick, Woken(th1[pick]), IsWaiting);
    } else if pick < |s.th| {
      CountUpdate(th1, pick, Woken(th1[pick]), IsWaiting);
    }
  }

  // ----- who has to wait -----

  /** Run of thread t alone, nobody signalled. */
  function Solo(s: State, t: nat, k: nat): State {
    if k == 0 then s else Step(Solo(s, t, k - 1), Run(t, 0))
  }

  lemma SoloSteps(s: State, t: nat)
    ensures Solo(s, t, 3) == Step(Step(Step(s, Run(t, 0)), Run(t, 0)), Run(t, 0))
    ensures Solo(s, t, 4) == Step(Solo(s, t, 3), Run(t, 0))
  {
    assert Solo(s, t, 1) == Step(Solo(s, t, 0), Run(t, 0));
    assert Solo(s, t, 2) == Step(Solo(s, t, 1), Run(t, 0));
  }

  /** The thread in another phase, with the mutex and the semaphore as given. */
  function At(s: State, t: nat, free: bool, sem: nat, phase: Phase): State
    requires t < |s.th|
  {
    s.(mutexFree := free, sem := sem, th := s.th[t := s.th[t].(phase := phase)])
  }

  predicate Testing(p: Phase) { p.RLock? || p.RSem? || p.RTest? || p.WLock? || p.WSem? || p.WTest? }

  lemma TestingStep(s: State, t: nat)
    requires t < |s.th| && Testing(s.th[t].phase) && CanRun(s, t, 0)
    ensures Step(s, Run(t, 0)) ==
      At(s, t, MutexAfter(s.th[t].phase, s.mutexFree),
         if s.sem + Taken(s.th[t].phase) >= 0 then s.sem + Taken(s.th[t].phase) else 0, After(s, t).phase)
  {
  }

  lemma AtAgain(s: State, t: nat, free: bool, sem: nat, phase: Phase, free': bool, sem': nat, phase': Phase)
    requires t < |s.th|
    ensures At(At(s, t, free, sem, phase), t, free', sem', phase') == At(s, t, free', sem', phase')
  {
  }

  lemma ReaderTests(s: State, t: nat)
    requires t < |s.th| && s.th[t].phase.RLock? && s.mutexFree && s.sem == 1 && s.writing == 0
    ensures Solo(s, t, 3) == At(s, t, false, 0, REnter)
  {
    SoloSteps(s, t);
    TestingStep(s, t);
    TestingStep(At(s, t, false, 1, RSem), t);
    AtAgain(s, t, false, 1, RSem, false, 0, RTest);
    TestingStep(At(s, t, false, 0, RTest), t);
    AtAgain(s, t, false, 0, RTest, false, 0, REnter);
  }

  /** Readers share: with no writer registered and the mutex and the semaphore free, a reader goes in by four
      steps of its own, whoever is reading already. */
  lemma ReaderJoins(s: State, t: nat)
    requires t < |s.th| && s.th[t].phase.RLock? && s.mutexFree && s.sem == 1 && s.writing == 0
    ensures Solo(s, t, 4) == At(s, t, false, 0, RPost2).(reading := s.reading + 1)
  {
    ReaderTests(s, t);
    SoloSteps(s, t);
    assert Step(At(s, t, false, 0, REnter), Run(t, 0)) == At(s, t, false, 0, RPost2).(reading := s.reading + 1);
  }

  /** A registered writer does not wait for other writers that wait, only for readers and for the mutex. */
  lemma WriterGoesIn(s: State, t: nat)
    requires t < |s.th| && s.th[t].phase.WLock? && s.mutexFree && s.sem == 1 && s.reading == 0
    ensures Solo(s, t, 3) == At(s, t, false, 0, WPost3)
  {
    SoloSteps(s, t);
    TestingStep(s, t);
    TestingStep(At(s, t, false, 1, WSem), t);
    AtAgain(s, t, false, 1, WSem, false, 0, WTest);
    TestingStep(At(s, t, false, 0, WTest), t);
    AtAgain(s, t, false, 0, WTest, false, 0, WPost3);
  }

  lemma Enabled(s: State, t: nat) returns (pick: nat)
    requires t < |s.th| && !Waiting(s.th[t])
    requires s.th[t].phase.WLock? || s.th[t].phase.RLock? ==> s.mutexFree
    requires s.th[t].phase.WIdle? || s.th[t].phase.WSem? || s.th[t].phase.RSem? || s.th[t].phase.RSemOut? ==> s.sem > 0
    ensures CanRun(s, t, pick)
  {
    pick := 0;
    if !NobodyWaits(s.th) {
      pick :| 0 <= pick < |s.th| && Waiting(s.th[pick]);
    }
  }

  lemma SemMoves(s: State) returns (t: nat, pick: nat)
    requires Inv(s) && s.sem == 0
    ensures t < |s.th| && CanRun(s, t, pick)
  {
    t := CountWitness(s.th, HoldsSem);
    pick := Enabled(s, t);
  }

  lemma MutexMoves(s: State) returns (t: nat, pick: nat)
    requires Inv(s) && !s.mutexFree
    ensures t < |s.th| && CanRun(s, t, pick)
  {
    t := CountWitness(s.th, HoldsMutex);
    if (s.th[t].phase.WSem? || s.th[t].phase.RSem?) && s.sem == 0 {
      t, pick := SemMoves(s);
    } else {
      pick := Enabled(s, t);
    }
  }

  /** Although read_unlock never signals, no run of either variant ends with every thread waiting on the
      condition variable: some thread is awake and some thread can take its next step. */
  lemma NeverAllWaiting(broadcast: bool, len: nat, writers: seq<bool>, schedule: seq<Action>) returns (t: nat, pick: nat)
    requires len > 0 && |writers| > 0
    ensures var s := Exec(Step, Init(broadcast, len, writers), schedule);
      && (exists u :: 0 <= u < |s.th| && !Waiting(s.th[u]))
      && t < |s.th| && CanRun(s, t, pick)
  {
    ReachableInv(broadcast, len, writers, schedule);
    var s := Exec(Step, Init(broadcast, len, writers), schedule);
    t :| 0 <= t < |s.th| && !Waiting(s.th[t]);
    if (s.th[t].phase.WLock? || s.th[t].phase.RLock?) && !s.mutexFree {
      t, pick := MutexMoves(s);
    } else if (s.th[t].phase.WIdle? || s.th[t].phase.WSem? || s.th[t].phase.RSem? || s.th[t].phase.RSemOut?) && s.sem == 0 {
      t, pick := SemMoves(s);
    } else {
      pick := Enabled(s, t);
    }
  }

  // ----- the program itself -----

  /** The lock's struct and the array it protects, changed in place. */
  class Program {
    const broadcast: bool
    const arr: array<nat>
    const th: array<Thread>
    var mutexFree: bool
    var sem: nat
    var reading: int
    var writing: int
    var errors: nat

    ghost function View(): State
      reads this, arr, th
    {
      State(broadcast, mutexFree, sem, reading, writing, arr[..], errors, th[..])
    }

    constructor (broadcast: bool, len: nat, writers: seq<bool>)
      ensures fresh(arr) && fresh(th) && View() == Init(broadcast, len, writers)
    {
      this.broadcast := broadcast;
      arr := new nat[len](_ => 0);
      th := new Thread[|writers|](t requires 0 <= t < |writers| => Start(writers[t], t));
      mutexFree, sem, reading, writing, errors := true, 1, 0, 0, 0;
      new;
      assert th[..] == Init(broadcast, len, writers).th;
    }

    /** pthread_cond_signal, waking thread pick if it waits. */
    method CondSignal(pick: nat)
      modifies th
      ensures th[..] == Signal(old(th[..]), pick)
      ensures pick < th.Length ==> !Waiting(th[pick]) && Relocks(old(th[pick]), th[pick])
      ensures forall k :: 0 <= k < th.Length && (k != pick || !Waiting(old(th[k]))) ==> th[k] == old(th[k])
    {
      if pick < th.Length {
        th[pick] := Woken(th[pick]);
      }
    }

    /** pthread_cond_broadcast */
    method CondBroadcast()
      modifies th
      ensures th[..] == WakeAll(old(th[..])) && NobodyWaits(th[..])
      ensures forall k :: 0 <= k < th.Length ==> Relocks(old(th[k]), th[k]) && (!Waiting(old(th[k])) ==> th[k] == old(th[k]))
    {
      for k := 0 to th.Length
        invariant forall j :: 0 <= j < k ==> th[j] == Woken(old(th[j]))
        invariant forall j :: k <= j < th.Length ==> th[j] == old(th[j])
      {
        th[k] := Woken(th[k]);
      }
    }

    /** A step of a writer: write_lock, the loop that fills the array, write_unlock. */
    method WriterStep(t: nat, pick: nat)
      requires t < th.Length && CanRun(View(), t, pick)
      requires match th[t].phase
               case WIdle | WRegister | WPost1 | WLock | WSem | WTest | WPost2 | WSleep | WWaiting
                  | WPost3 | WFill | WLeave | WSignal | WUnlock => true
               case _ => false
      modifies this, arr, th
      ensures View() == RunStep(old(View()), t, pick)
    {
      var me := th[t];
      match me.phase {
        case WIdle => sem := sem - 1; th[t] := me.(phase := WRegister);
        case WRegister => writing := writing + 1; th[t] := me.(phase := WPost1);
        case WPost1 => sem := sem + 1; th[t] := me.(phase := WLock);
        case WLock => mutexFree := false; th[t] := me.(phase := WSem);
        case WSem => sem := sem - 1; th[t] := me.(phase := WTest);
        case WTest => th[t] := me.(phase := if reading != 0 then WPost2 else WPost3);
        case WPost2 => sem := sem + 1; th[t] := me.(phase := WSleep);
        case WSleep => mutexFree := true; th[t] := me.(phase := WWaiting);
        case WPost3 => sem := sem + 1; th[t] := me.(phase := WFill, i := 0);
        case WFill =>
          if me.i < arr.Length {
            arr[me.i] := me.num;
            th[t] := me.(i := me.i + 1);
          } else {
            th[t] := me.(phase := WLeave);
          }
        case WLeave => writing := writing - 1; th[t] := me.(phase := WSignal);
        case WSignal =>
          th[t] := me.(phase := WUnlock);
          if broadcast { CondBroadcast(); } else { CondSignal(pick); }
        case WUnlock => mutexFree := true; th[t] := me.(phase := WIdle);
      }
    }

    /** A step of a reader: read_lock, the scan of the array, read_unlock. */
    method ReaderStep(t: nat, pick: nat)
      requires t < th.Length && CanRun(View(), t, pick)
      requires match th[t].phase
               case RLock | RSem | RTest | RPost1 | RSignal1 | RSleep | RWaiting | REnter | RPost2 | RSignal2
                  | RUnlock | RFirst | RScan | RSemOut | RLeave | RPost3 => true
               case _ => false
      modifies this, th
      ensures View() == RunStep(old(View()), t, pick)
    {
      var me := th[t];
      match me.phase {
        case RLock => mutexFree := false; th[t] := me.(phase := RSem);
        case RSem => sem := sem - 1; th[t] := me.(phase := RTest);
        case RTest => th[t] := me.(phase := if writing != 0 then RPost1 else REnter);
        case RPost1 => sem := sem + 1; th[t] := me.(phase := RSignal1);
        case RSignal1 => th[t] := me.(phase := RSleep); CondSignal(pick);
        case RSleep => mutexFree := true; th[t] := me.(phase := RWaiting);
        case REnter => reading := reading + 1; th[t] := me.(phase := RPost2);
        case RPost2 => sem := sem + 1; th[t] := me.(phase := RSignal2);
        case RSignal2 =>
          th[t] := me.(phase := RUnlock);
          if broadcast { CondBroadcast(); } else { CondSignal(pick); }
        case RUnlock => mutexFree := true; th[t] := me.(phase := RFirst);
        case RFirst => th[t] := me.(phase := RScan, i := 1, v := if arr.Length > 0 then arr[0] else 0);
        case RScan =>
          if me.i < arr.Length && arr[me.i] == me.v {
            th[t] := me.(i := me.i + 1);
          } else {
            if me.i < arr.Length { errors := errors + 1; }
            th[t] := me.(phase := RSemOut);
          }
        case RSemOut => sem := sem - 1; th[t] := me.(phase := RLeave);
        case RLeave => reading := reading - 1; th[t] := me.(phase := RPost3);
        case RPost3 => sem := sem + 1; th[t] := me.(phase := RLock);
      }
    }

    method Act(a: Action)
      modifies this, arr, th
      ensures View() == Step(old(View()), a)
    {
      match a {
        case Spurious(t) =>
          if t < th.Length { CondSignal(t); }
        case Run(t, pick) =>
          if t < th.Length {
            var can := Ready(t, pick);
            if can {
              match th[t].phase {
                case WIdle | WRegister | WPost1 | WLock | WSem | WTest | WPost2 | WSleep | WWaiting
                   | WPost3 | WFill | WLeave | WSignal | WUnlock => WriterStep(t, pick);
                case _ => ReaderStep(t, pick);
              }
            }
          }
      }
    }

    /** No schedule prints "error de lectura". */
    method RunAll(schedule: seq<Action>, ghost writers: seq<bool>)
      requires arr.Length > 0 && View() == Init(broadcast, arr.Length, writers)
      modifies this, arr, th
      ensures View() == Exec(Step, old(View()), schedule) && errors == 0
    {
      ghost var s0 := View();
      for k := 0 to |schedule|
        invariant View() == Exec(Step, s0, schedule[..k])
      {
        ExecOne(Step, s0, schedule[..k], schedule[k]);
        assert schedule[..k + 1] == schedule[..k] + [schedule[k]];
        Act(schedule[k]);
      }
      assert schedule[..|schedule|] == schedule;
      NoTornRead(broadcast, arr.Length, writers, schedule);
    }

    /** Whether thread t is blocked on the mutex, the semaphore or the condition variable. */
    method Ready(t: nat, pick: nat) returns (can: bool)
      requires t < th.Length
      ensures can == CanRun(View(), t, pick)
    {
      var nobody := true;
      for k := 0 to th.Length
        invariant nobody <==> forall j :: 0 <= j < k ==> !Waiting(th[j])
      {
        nobody := nobody && !Waiting(th[k]);
      }
      var picked := nobody || (pick < th.Length && Waiting(th[pick]));
      match th[t].phase {
        case WIdle | WSem | RSem | RSemOut => can := sem > 0;
        case WLock | RLock => can := mutexFree;
        case WWaiting | RWaiting => can := false;
        case RSignal1 => can := picked;
        case RSignal2 | WSignal => can := broadcast || picked;
        case _ => can := true;
      }
    }
  }
}
