/** `cons_prod_cv.c`: the same buffer behind a mutex and one condition variable that producers and
    consumers share. */
module MonitorBuffer {
  import opened Runs
  import opened Counting
  import Spec = AtomicStack

  datatype Phase =
    | Idle
    | PLock         // pthread_mutex_lock, and again on return from pthread_cond_wait
    | PTest         // while (pos_buffer == SZ)
    | PSleep        // pthread_cond_wait: give up the mutex and wait
    | PWaiting
    | PStore        // buffer[pos_buffer] = p
    | PBump         // pos_buffer++
    | PUnlock
    | PSignal       // pthread_cond_signal, return
    | CLock
    | CTest         // while (pos_buffer == 0)
    | CSleep
    | CWaiting
    | CBump         // pos_buffer--
    | CLoad         // ret = buffer[pos_buffer]
    | CUnlock
    | CSignal       // pthread_cond_signal, return ret

  datatype Thread = Thread(producer: bool, phase: Phase, item: nat)

  datatype State = State(
    buffer: seq<nat>, pos: nat, mutexFree: bool, th: seq<Thread>, sent: multiset<nat>, received: multiset<nat>)

  /** Run(t, pick): pick is the thread woken if the step signals; a pick that does not wait wakes nobody. */
  datatype Action = Call(t: nat, p: nat) | Run(t: nat, pick: nat) | Spurious(t: nat)

  function Init(size: nat, producers: seq<bool>): State {
    State(seq(size, _ => 0), 0, true,
          seq(|producers|, t requires 0 <= t < |producers| => Thread(producers[t], Idle, 0)),
          multiset{}, multiset{})
  }

  predicate CanRun(s: State, t: nat)
    requires t < |s.th|
  {
    match s.th[t].phase
    case Idle | PWaiting | CWaiting => false
    case PLock | CLock => s.mutexFree
    case PStore => s.pos < |s.buffer|
    case CBump => s.pos > 0
    case CLoad => s.pos < |s.buffer|
    case _ => true
  }

  predicate Waiting(t: Thread) { t.phase.PWaiting? || t.phase.CWaiting? }

  predicate NobodyWaits(th: seq<Thread>) { forall k :: 0 <= k < |th| ==> !Waiting(th[k]) }

  /** pthread_cond_signal wakes a waiting thread if there is one. */
  predicate MayPick(th: seq<Thread>, t: nat, pick: nat)
    requires t < |th|
  {
    th[t].phase.PSignal? || th[t].phase.CSignal? ==> NobodyWaits(th) || (pick < |th| && Waiting(th[pick]))
  }

  function NextPhase(s: State, p: Phase): Phase {
    match p
    case PLock => PTest
    case PTest => if s.pos == |s.buffer| then PSleep else PStore
    case PSleep => PWaiting
    case PStore => PBump
    case PBump => PUnlock
    case PUnlock => PSignal
    case PSignal => Idle
    case CLock => CTest
    case CTest => if s.pos == 0 then CSleep else CBump
    case CSleep => CWaiting
    case CBump => CLoad
    case CLoad => CUnlock
    case CUnlock => CSignal
    case CSignal => Idle
    case _ => p
  }

  function Woken(t: Thread): Thread {
    if t.phase.PWaiting? then t.(phase := PLock)
    else if t.phase.CWaiting? then t.(phase := CLock)
    else t
  }

  function Signal(th: seq<Thread>, pick: nat): seq<Thread> {
    if pick < |th| then th[pick := Woken(th[pick])] else th
  }

  function After(s: State, t: nat): Thread
    requires t < |s.th| && CanRun(s, t)
  {
    var me := s.th[t];
    me.(phase := NextPhase(s, me.phase), item := if me.phase.CLoad? then s.buffer[s.pos] else me.item)
  }

  function RunStep(s: State, t: nat, pick: nat): State
    requires t < |s.th| && CanRun(s, t)
  {
    var me := s.th[t];
    var moved := s.(th := s.th[t := After(s, t)]);
    match me.phase
    case PLock | CLock => moved.(mutexFree := false)
    case PSleep | CSleep | PUnlock | CUnlock => moved.(mutexFree := true)
    case PStore => moved.(buffer := s.buffer[s.pos := me.item])
    case PBump => moved.(pos := s.pos + 1)
    case CBump => moved.(pos := s.pos - 1)
    case PSignal => moved.(th := Signal(moved.th, pick))
    case CSignal => moved.(th := Signal(moved.th, pick), received := s.received + multiset{me.item})
    case _ => moved
  }

  function CallStep(s: State, t: nat, p: nat): State
    requires t < |s.th|
  {
    var me := s.th[t];
    if me.phase != Idle then s
    else if me.producer then
      s.(th := s.th[t := me.(phase := PLock, item := p)], sent := s.sent + multiset{p})
    else s.(th := s.th[t := me.(phase := CLock)])
  }

  function Step(s: State, a: Action): State {
    if a.t >= |s.th| then s
    else
      match a
      case Call(t, p) => CallStep(s, t, p)
      case Run(t, pick) => if CanRun(s, t) && MayPick(s.th, t, pick) then RunStep(s, t, pick) else s
      case Spurious(t) => s.(th := Signal(s.th, t))
  }

  // ----- the invariant -----

  predicate InMutex(t: Thread) {
    match t.phase
    case PTest | PSleep | PStore | PBump | PUnlock | CTest | CSleep | CBump | CLoad | CUnlock => true
    case _ => false
  }

  predicate ThreadOk(s: State, t: Thread) {
    match t.phase
    case PStore => s.pos < |s.buffer|
    case PBump => s.pos < |s.buffer| && s.buffer[s.pos] == t.item
    case CBump => s.pos > 0
    case CLoad => s.pos < |s.buffer|
    case PSleep => s.pos == |s.buffer|
    case CSleep => s.pos == 0
    case _ => true
  }

  ghost predicate Inv(s: State) {
    && B(s.mutexFree) + Count(s.th, InMutex) == 1
    && s.pos <= |s.buffer|
    && forall t :: 0 <= t < |s.th| ==> ThreadOk(s, s.th[t])
  }

  lemma OneInMutex(s: State, t: nat, u: nat)
    requires Inv(s) && t < |s.th| && u < |s.th| && InMutex(s.th[t]) && InMutex(s.th[u])
    ensures t == u
  {
    CountTwo(s.th, InMutex, t, u);
  }

  lemma StepThreads(s: State, t: nat, pick: nat)
    requires t < |s.th| && CanRun(s, t)
    ensures var th1, th' := s.th[t := After(s, t)], RunStep(s, t, pick).th;
      |th'| == |s.th| && forall k :: 0 <= k < |s.th| ==> th'[k] == th1[k] || th'[k] == Woken(th1[k])
  {
  }

  lemma CountAfter(s: State, t: nat, pick: nat)
    requires t < |s.th| && CanRun(s, t)
    ensures Count(RunStep(s, t, pick).th, InMutex) == Count(s.th, InMutex) - B(InMutex(s.th[t])) + B(InMutex(After(s, t)))
  {
    StepThreads(s, t, pick);
    CountUpdate(s.th, t, After(s, t), InMutex);
    CountSame(s.th[t := After(s, t)], RunStep(s, t, pick).th, InMutex);
  }

  lemma RunKeepsMutex(s: State, t: nat, pick: nat)
    requires Inv(s) && t < |s.th| && CanRun(s, t)
    ensures var s' := RunStep(s, t, pick); B(s'.mutexFree) + Count(s'.th, InMutex) == 1
  {
    CountAfter(s, t, pick);
    if InMutex(s.th[t]) { CountTwo(s.th, InMutex, t, t); }
  }

  /** Thread t's step as thread u sees it: u is not in the mutex when t touches the buffer. */
  lemma RunKeepsThread(s: State, t: nat, pick: nat, u: nat)
    requires t < |s.th| && CanRun(s, t) && u < |s.th| && s.pos <= |s.buffer|
    requires ThreadOk(s, s.th[t]) && ThreadOk(s, s.th[u])
    requires u != t ==> !(InMutex(s.th[t]) && InMutex(s.th[u]))
    ensures |RunStep(s, t, pick).th| == |s.th| && ThreadOk(RunStep(s, t, pick), RunStep(s, t, pick).th[u])
  {
    StepThreads(s, t, pick);
    var s', th1 := RunStep(s, t, pick), s.th[t := After(s, t)];
    assert ThreadOk(s', s'.th[u]) == ThreadOk(s', th1[u]);
  }

  lemma RunKeepsInv(s: State, t: nat, pick: nat)
    requires Inv(s) && t < |s.th| && CanRun(s, t)
    ensures Inv(RunStep(s, t, pick))
  {
    var s' := RunStep(s, t, pick);
    RunKeepsMutex(s, t, pick);
    StepThreads(s, t, pick);
    assert ThreadOk(s, s.th[t]);
    forall u | 0 <= u < |s'.th| ensures ThreadOk(s', s'.th[u]) {
      assert ThreadOk(s, s.th[u]);
      if InMutex(s.th[t]) && InMutex(s.th[u]) { OneInMutex(s, t, u); }
      RunKeepsThread(s, t, pick, u);
    }
  }

  lemma CallKeepsInv(s: State, t: nat, p: nat)
    requires Inv(s) && t < |s.th|
    ensures Inv(CallStep(s, t, p)) && |CallStep(s, t, p).th| == |s.th|
  {
    var s' := CallStep(s, t, p);
    CountUpdate(s.th, t, s'.th[t], InMutex);
    assert s'.th == s.th[t := s'.th[t]];
  }

  lemma SpuriousKeepsInv(s: State, t: nat)
    requires Inv(s)
    ensures Inv(s.(th := Signal(s.th, t))) && |Signal(s.th, t)| == |s.th|
  {
    CountSame(s.th, Signal(s.th, t), InMutex);
  }

  lemma StepKeepsInv(s: State, a: Action)
    requires Inv(s)
    ensures Inv(Step(s, a)) && |Step(s, a).th| == |s.th| && |Step(s, a).buffer| == |s.buffer|
  {
    if a.t < |s.th| {
      match a
      case Call(t, p) => CallKeepsInv(s, t, p);
      case Run(t, pick) => if CanRun(s, t) { RunKeepsInv(s, t, pick); StepThreads(s, t, pick); }
      case Spurious(t) => SpuriousKeepsInv(s, t);
    }
  }

  lemma ReachableInv(size: nat, producers: seq<bool>, schedule: seq<Action>)
    ensures Inv(Exec(Step, Init(size, producers), schedule))
  {
    CountBounds(Init(size, producers).th, InMutex);
    forall s: State, a: Action | Inv(s) ensures Inv(Step(s, a)) {
      StepKeepsInv(s, a);
    }
    InvariantHolds(Step, (s: State) => Inv(s), Init(size, producers), schedule);
  }

  // ----- refinement -----

  function ClientOf(s: State, t: Thread): Spec.Client {
    match t.phase
    case Idle => Spec.Idle
    case PLock | PTest | PSleep | PWaiting | PStore | PBump => Spec.Sending(t.item)
    case PUnlock | PSignal => Spec.Sent
    case CLock | CTest | CSleep | CWaiting | CBump => Spec.Receiving
    case CLoad => Spec.Got(if s.pos < |s.buffer| then s.buffer[s.pos] else 0)
    case CUnlock | CSignal => Spec.Got(t.item)
  }

  function ClientsOf(s: State): seq<Spec.Client> {
    seq(|s.th|, t requires 0 <= t < |s.th| => ClientOf(s, s.th[t]))
  }

  function Abs(s: State): Spec.State {
    Spec.State(|s.buffer|, if s.pos <= |s.buffer| then s.buffer[..s.pos] else [], ClientsOf(s), s.sent, s.received)
  }

  lemma OthersSame(s: State, t: nat, pick: nat)
    requires Inv(s) && t < |s.th| && CanRun(s, t)
    ensures var s' := RunStep(s, t, pick);
            |s'.th| == |s.th| && ClientsOf(s') == ClientsOf(s)[t := ClientOf(s', After(s, t))]
  {
    var s', th1 := RunStep(s, t, pick), s.th[t := After(s, t)];
    StepThreads(s, t, pick);
    forall u | 0 <= u < |s.th| ensures ClientOf(s', s'.th[u]) == if u == t then ClientOf(s', th1[t]) else ClientOf(s, s.th[u]) {
      assert ClientOf(s', s'.th[u]) == ClientOf(s', th1[u]);
      if u != t && InMutex(s.th[t]) && InMutex(s.th[u]) { OneInMutex(s, t, u); }
    }
  }

  lemma BumpRefines(s: State, t: nat, pick: nat)
    requires Inv(s) && t < |s.th| && (s.th[t].phase.PBump? || s.th[t].phase.CBump?) && CanRun(s, t)
    ensures Spec.Next(Abs(s), Abs(RunStep(s, t, pick)), t)
  {
    var s' := RunStep(s, t, pick);
    OthersSame(s, t, pick);
    assert ThreadOk(s, s.th[t]);
    if s.th[t].phase.PBump? {
      assert s'.buffer[..s'.pos] == s.buffer[..s.pos] + [s.th[t].item];
    } else {
      assert s.buffer[..s.pos] == s'.buffer[..s'.pos] + [s.buffer[s.pos - 1]];
    }
  }

  lemma OtherRunRefines(s: State, t: nat, pick: nat)
    requires Inv(s) && t < |s.th| && !s.th[t].phase.PBump? && !s.th[t].phase.CBump? && CanRun(s, t)
    ensures Spec.Next(Abs(s), Abs(RunStep(s, t, pick)), t)
  {
    var s' := RunStep(s, t, pick);
    OthersSame(s, t, pick);
    assert s'.pos == s.pos && s'.buffer[..s.pos] == s.buffer[..s.pos];
    if s.th[t].phase.PSignal? || s.th[t].phase.CSignal? {
      assert After(s, t).phase == Idle;
    } else {
      assert ClientOf(s', After(s, t)) == ClientOf(s, s.th[t]);
      assert ClientsOf(s') == ClientsOf(s);
    }
  }

  lemma CallRefines(s: State, t: nat, p: nat)
    requires Inv(s) && t < |s.th|
    ensures Spec.Next(Abs(s), Abs(CallStep(s, t, p)), t)
  {
    var s' := CallStep(s, t, p);
    if s' != s {
      assert ClientsOf(s') == ClientsOf(s)[t := ClientOf(s', s'.th[t])];
    }
  }

  /** Every interleaving of this buffer too is one of the atomic stack. */
  lemma StepRefines(s: State, a: Action)
    requires Inv(s)
    ensures Spec.Next(Abs(s), Abs(Step(s, a)), a.t)
  {
    if a.t < |s.th| {
      match a
      case Call(t, p) =>
        CallRefines(s, t, p);
      case Run(t, pick) =>
        if CanRun(s, t) {
          if s.th[t].phase.PBump? || s.th[t].phase.CBump? { BumpRefines(s, t, pick); } else { OtherRunRefines(s, t, pick); }
        }
      case Spurious(t) =>
        assert ClientsOf(Step(s, a)) == ClientsOf(s);
    }
  }

  lemma {:induction false} Conservation(size: nat, producers: seq<bool>, schedule: seq<Action>)
    ensures Spec.Conserved(Abs(Exec(Step, Init(size, producers), schedule)))
    decreases |schedule|
  {
    var s0 := Init(size, producers);
    if schedule == [] {
      forall p: nat ensures Spec.Accounted(Abs(s0), p) { Spec.NothingCarried(ClientsOf(s0), p); }
    } else {
      var before := schedule[..|schedule| - 1];
      Conservation(size, producers, before);
      ReachableInv(size, producers, before);
      StepRefines(Exec(Step, s0, before), schedule[|schedule| - 1]);
      Spec.NextConserves(Abs(Exec(Step, s0, before)), Abs(Exec(Step, s0, schedule)), schedule[|schedule| - 1].t);
    }
  }

  /** Whoever is about to write or read a cell, or to lower pos_buffer, is inside the array; the guards on
      these steps never hold anybody up. */
  lemma NeverOutOfBounds(size: nat, producers: seq<bool>, schedule: seq<Action>, t: nat)
    ensures var s := Exec(Step, Init(size, producers), schedule);
      t < |s.th| ==>
        && (s.th[t].phase.PStore? || s.th[t].phase.CLoad? ==> s.pos < |s.buffer|)
        && (s.th[t].phase.CBump? ==> s.pos > 0)
  {
    ReachableInv(size, producers, schedule);
    var s := Exec(Step, Init(size, producers), schedule);
    assert t < |s.th| ==> ThreadOk(s, s.th[t]);
  }

  // ----- who has to wait, and what a call does -----

  /** A producer waits on the condition variable only when the buffer is full, a consumer only when it is empty. */
  lemma WaitsOnlyIf(size: nat, producers: seq<bool>, schedule: seq<Action>, t: nat)
    ensures var s := Exec(Step, Init(size, producers), schedule);
      t < |s.th| ==> (s.th[t].phase.PSleep? ==> s.pos == |s.buffer|) && (s.th[t].phase.CSleep? ==> s.pos == 0)
  {
    ReachableInv(size, producers, schedule);
    var s := Exec(Step, Init(size, producers), schedule);
    assert t < |s.th| ==> ThreadOk(s, s.th[t]);
  }

  predicate IsWaiting(t: Thread) { Waiting(t) }

  /** The signal at the end of a call wakes exactly one waiting thread, if there is one: it is about to lock the
      mutex again, and nobody else moves. */
  lemma SignalWakesOne(s: State, t: nat, pick: nat)
    requires t < |s.th| && (s.th[t].phase.PSignal? || s.th[t].phase.CSignal?) && MayPick(s.th, t, pick)
    ensures var th' := Step(s, Run(t, pick)).th;
      && |th'| == |s.th| && th'[t].phase.Idle?
      && Count(th', IsWaiting) == Count(s.th, IsWaiting) - (if NobodyWaits(s.th) then 0 else 1)
      && (forall k :: 0 <= k < |s.th| && k != t && th'[k] != s.th[k] ==>
            k == pick && Waiting(s.th[k]) && th'[k] == s.th[k].(phase := if s.th[k].phase.PWaiting? then PLock else CLock))
  {
    CountUpdate(s.th, t, After(s, t), IsWaiting);
    var th1 := s.th[t := After(s, t)];
    if pick < |s.th| {
      CountUpdate(th1, pick, Woken(th1[pick]), IsWaiting);
    }
  }

  /** The state after k of the first five steps of enviar, taken alone with room in the buffer. */
  function SendMid(s: State, t: nat, k: nat): State
    requires t < |s.th| && s.pos < |s.buffer| && k <= 5
  {
    var me := s.th[t];
    var phase := match k
      case 0 => PLock case 1 => PTest case 2 => PStore case 3 => PBump case 4 => PUnlock case _ => PSignal;
    s.(mutexFree := k == 0 || k == 5,
       buffer := if k >= 3 then s.buffer[s.pos := me.item] else s.buffer,
       pos := if k >= 4 then s.pos + 1 else s.pos,
       th := s.th[t := me.(phase := phase)])
  }

  lemma SendMidStep(s: State, t: nat, k: nat)
    requires t < |s.th| && s.pos < |s.buffer| && k < 5
    ensures Step(SendMid(s, t, k), Run(t, 0)) == SendMid(s, t, k + 1)
  {
    var x, y := SendMid(s, t, k), SendMid(s, t, k + 1);
    assert CanRun(x, t) && RunStep(x, t, 0).th == y.th;
  }

  /** With the mutex free and room in the buffer a producer does not wait: its own five steps put the pointer on
      top of the stack, and only the signal and the return are left. */
  lemma SendsAlone(s: State, t: nat)
    requires Inv(s) && t < |s.th| && s.th[t].phase.PLock? && s.mutexFree && s.pos < |s.buffer|
    ensures var s' := SendMid(s, t, 5);
      && Reaches(Step, s, s') && Inv(s') && s'.th == s.th[t := s.th[t].(phase := PSignal)] && s'.mutexFree
      && s'.buffer[..s'.pos] == s.buffer[..s.pos] + [s.th[t].item] && s'.sent == s.sent && s'.received == s.received
  {
    assert SendMid(s, t, 0) == s;
    ReachesSelf(Step, s);
    for k := 0 to 5
      invariant Reaches(Step, s, SendMid(s, t, k)) && Inv(SendMid(s, t, k))
    {
      SendMidStep(s, t, k);
      ReachesStep(Step, s, SendMid(s, t, k), Run(t, 0));
      StepKeepsInv(SendMid(s, t, k), Run(t, 0));
    }
  }

  /** The state after k of the first five steps of recibir, taken alone with something in the buffer. */
  function ReceiveMid(s: State, t: nat, k: nat): State
    requires t < |s.th| && 0 < s.pos <= |s.buffer| && k <= 5
  {
    var me, p := s.th[t], s.buffer[s.pos - 1];
    var phase := match k
      case 0 => CLock case 1 => CTest case 2 => CBump case 3 => CLoad case 4 => CUnlock case _ => CSignal;
    s.(mutexFree := k == 0 || k == 5,
       pos := if k >= 3 then s.pos - 1 else s.pos,
       th := s.th[t := me.(phase := phase, item := if k >= 4 then p else me.item)])
  }

  lemma ReceiveMidStep(s: State, t: nat, k: nat)
    requires t < |s.th| && 0 < s.pos <= |s.buffer| && k < 5
    ensures Step(ReceiveMid(s, t, k), Run(t, 0)) == ReceiveMid(s, t, k + 1)
  {
    var x, y := ReceiveMid(s, t, k), ReceiveMid(s, t, k + 1);
    assert CanRun(x, t) && RunStep(x, t, 0).th == y.th;
  }

  /** With the mutex free and something stored a consumer does not wait: its own five steps take the pointer on
      top of the stack. */
  lemma ReceivesAlone(s: State, t: nat)
    requires Inv(s) && t < |s.th| && s.th[t].phase.CLock? && s.mutexFree && s.pos > 0
    ensures var s', p := ReceiveMid(s, t, 5), s.buffer[s.pos - 1];
      && Reaches(Step, s, s') && Inv(s') && s'.th == s.th[t := s.th[t].(phase := CSignal, item := p)] && s'.mutexFree
      && s.buffer[..s.pos] == s'.buffer[..s'.pos] + [p] && s'.sent == s.sent && s'.received == s.received
  {
    assert ReceiveMid(s, t, 0) == s;
    ReachesSelf(Step, s);
    for k := 0 to 5
      invariant Reaches(Step, s, ReceiveMid(s, t, k)) && Inv(ReceiveMid(s, t, k))
    {
      ReceiveMidStep(s, t, k);
      ReachesStep(Step, s, ReceiveMid(s, t, k), Run(t, 0));
      StepKeepsInv(ReceiveMid(s, t, k), Run(t, 0));
    }
  }

  // ----- the program itself -----

  /** buffer, pos_buffer, the mutex and the threads on it, changed in place. */
  class Program {
    const buffer: array<nat>
    const th: array<Thread>
    var pos: nat
    var mutexFree: bool
    ghost var sent: multiset<nat>
    ghost var received: multiset<nat>

    ghost function View(): State
      reads this, buffer, th
    {
      State(buffer[..], pos, mutexFree, th[..], sent, received)
    }

    constructor (size: nat, producers: seq<bool>)
      ensures fresh(buffer) && fresh(th) && View() == Init(size, producers)
    {
      buffer := new nat[size](_ => 0);
      th := new Thread[|producers|](t requires 0 <= t < |producers| => Thread(producers[t], Idle, 0));
      pos, mutexFree := 0, true;
      sent, received := multiset{}, multiset{};
      new;
      assert th[..] == Init(size, producers).th;
    }

    /** Whether a signal may pick this thread: it waits, or nobody does. */
    method Picks(pick: nat) returns (may: bool)
      ensures may <==> NobodyWaits(th[..]) || (pick < th.Length && Waiting(th[pick]))
    {
      may := true;
      for k := 0 to th.Length
        invariant may <==> forall j :: 0 <= j < k ==> !Waiting(th[j])
      {
        may := may && !Waiting(th[k]);
      }
      if pick < th.Length && Waiting(th[pick]) {
        may := true;
      }
    }

    method CondSignal(pick: nat)
      modifies th
      ensures th[..] == Signal(old(th[..]), pick)
    {
      if pick < th.Length {
        th[pick] := Woken(th[pick]);
      }
    }

    /** The next step of enviar. */
    method Enviar(t: nat, pick: nat)
      requires t < th.Length && CanRun(View(), t)
      requires match th[t].phase
               case PLock | PTest | PSleep | PStore | PBump | PUnlock | PSignal => true
               case _ => false
      modifies this, buffer, th
      ensures View() == RunStep(old(View()), t, pick)
    {
      var me := th[t];
      match me.phase {
        case PLock => mutexFree := false; th[t] := me.(phase := PTest);
        case PTest => th[t] := me.(phase := if pos == buffer.Length then PSleep else PStore);
        case PSleep => mutexFree := true; th[t] := me.(phase := PWaiting);
        case PStore => buffer[pos] := me.item; th[t] := me.(phase := PBump);
        case PBump => pos := pos + 1; th[t] := me.(phase := PUnlock);
        case PUnlock => mutexFree := true; th[t] := me.(phase := PSignal);
        case PSignal => th[t] := me.(phase := Idle); CondSignal(pick);
      }
    }

    /** The next step of recibir. */
    method Recibir(t: nat, pick: nat)
      requires t < th.Length && CanRun(View(), t)
      requires match th[t].phase
               case CLock | CTest | CSleep | CBump | CLoad | CUnlock | CSignal => true
               case _ => false
      modifies this, th
      ensures View() == RunStep(old(View()), t, pick)
    {
      var me := th[t];
      match me.phase {
        case CLock => mutexFree := false; th[t] := me.(phase := CTest);
        case CTest => th[t] := me.(phase := if pos == 0 then CSleep else CBump);
        case CSleep => mutexFree := true; th[t] := me.(phase := CWaiting);
        case CBump => pos := pos - 1; th[t] := me.(phase := CLoad);
        case CLoad => th[t] := me.(phase := CUnlock, item := buffer[pos]);
        case CUnlock => mutexFree := true; th[t] := me.(phase := CSignal);
        case CSignal =>
          th[t] := me.(phase := Idle);
          CondSignal(pick);
          received := received + multiset{me.item};
      }
    }

    method CallOf(t: nat, p: nat)
      requires t < th.Length
      modifies this`sent, th
      ensures View() == CallStep(old(View()), t, p)
    {
      var me := th[t];
      if me.phase == Idle {
        if me.producer {
          th[t] := me.(phase := PLock, item := p);
          sent := sent + multiset{p};
        } else {
          th[t] := me.(phase := CLock);
        }
      }
    }

    /** The next step of thread t, if it is not held up. */
    method RunThread(t: nat, pick: nat)
      requires t < th.Length
      modifies this, buffer, th
      ensures View() == Step(old(View()), Action.Run(t, pick))
    {
      var may := Picks(pick);
      match th[t].phase {
        case Idle | PWaiting | CWaiting =>
        case PLock => if mutexFree { Enviar(t, pick); }
        case PStore => if pos < buffer.Length { Enviar(t, pick); }
        case PTest | PSleep | PBump | PUnlock => Enviar(t, pick);
        case PSignal => if may { Enviar(t, pick); }
        case CLock => if mutexFree { Recibir(t, pick); }
        case CBump => if pos > 0 { Recibir(t, pick); }
        case CLoad => if pos < buffer.Length { Recibir(t, pick); }
        case CTest | CSleep | CUnlock => Recibir(t, pick);
        case CSignal => if may { Recibir(t, pick); }
      }
    }

    method Act(a: Action)
      requires a.t < th.Length
      modifies this, buffer, th
      ensures View() == Step(old(View()), a)
    {
      match a {
        case Call(t, p) => CallOf(t, p);
        case Spurious(t) => CondSignal(t);
        case Run(t, pick) => RunThread(t, pick);
      }
    }

    /** Any schedule: no pointer is lost or delivered twice. */
    method Run(schedule: seq<Action>, ghost producers: seq<bool>)
      requires View() == Init(buffer.Length, producers) && forall k :: 0 <= k < |schedule| ==> schedule[k].t < th.Length
      modifies this, buffer, th
      ensures View() == Exec(Step, old(View()), schedule) && Spec.Conserved(Abs(View()))
    {
      ghost var s0 := View();
      for k := 0 to |schedule|
        invariant View() == Exec(Step, s0, schedule[..k])
      {
        ExecOne(Step, s0, schedule[..k], schedule[k]);
        assert schedule[..k + 1] == schedule[..k] + [schedule[k]];
        Act(schedule[k]);
      }
      assert schedule[..|schedule|] == schedule;
      Conservation(buffer.Length, producers, schedule);
    }
  }
}
