/** `cons_prod_sem.c`: three semaphores, one for free slots, one for stored pointers, one as a lock. */
module SemaphoreBuffer {
  import opened Runs
  import opened Counting
  import Spec = AtomicStack

  datatype Phase =
    | Idle
    | PWaitSlot     // sem_wait(&productores_sem)
    | PLock         // sem_wait(&pos_sem)
    | PStore        // buffer[pos_buffer] = p
    | PBump         // pos_buffer++
    | PUnlock       // sem_post(&pos_sem)
    | PPost         // sem_post(&consumidores_sem), return
    | CWaitItem     // sem_wait(&consumidores_sem)
    | CLock         // sem_wait(&pos_sem)
    | CBump         // pos_buffer--
    | CLoad         // ret = buffer[pos_buffer]
    | CUnlock       // sem_post(&pos_sem)
    | CPost         // sem_post(&productores_sem), return ret

  datatype Thread = Thread(producer: bool, phase: Phase, item: nat)

  datatype State = State(
    buffer: seq<nat>, pos: nat, slots: nat, items: nat, lock: nat, th: seq<Thread>,
    sent: multiset<nat>, received: multiset<nat>)

  /** Call(t, p): producer t calls enviar(p), or consumer t calls recibir(). */
  datatype Action = Call(t: nat, p: nat) | Run(t: nat)

  function Init(size: nat, producers: seq<bool>): State {
    State(seq(size, _ => 0), 0, size, 0, 1,
          seq(|producers|, t requires 0 <= t < |producers| => Thread(producers[t], Idle, 0)),
          multiset{}, multiset{})
  }

  predicate CanRun(s: State, t: nat)
    requires t < |s.th|
  {
    match s.th[t].phase
    case Idle => false
    case PWaitSlot => s.slots > 0
    case PLock => s.lock > 0
    case PStore => s.pos < |s.buffer|
    case CWaitItem => s.items > 0
    case CLock => s.lock > 0
    case CBump => s.pos > 0
    case CLoad => s.pos < |s.buffer|
    case _ => true
  }

  function NextPhase(p: Phase): Phase {
    match p
    case Idle => Idle
    case PWaitSlot => PLock case PLock => PStore case PStore => PBump case PBump => PUnlock
    case PUnlock => PPost case PPost => Idle
    case CWaitItem => CLock case CLock => CBump case CBump => CLoad case CLoad => CUnlock
    case CUnlock => CPost case CPost => Idle
  }

  function RunStep(s: State, t: nat): State
    requires t < |s.th| && CanRun(s, t)
  {
    var me := s.th[t];
    var moved := s.(th := s.th[t := me.(phase := NextPhase(me.phase))]);
    match me.phase
    case PWaitSlot => moved.(slots := s.slots - 1)
    case PLock => moved.(lock := s.lock - 1)
    case PStore => moved.(buffer := s.buffer[s.pos := me.item])
    case PBump => moved.(pos := s.pos + 1)
    case PUnlock => moved.(lock := s.lock + 1)
    case PPost => moved.(items := s.items + 1)
    case CWaitItem => moved.(items := s.items - 1)
    case CLock => moved.(lock := s.lock - 1)
    case CBump => moved.(pos := s.pos - 1)
    case CLoad => moved.(th := s.th[t := me.(phase := CUnlock, item := s.buffer[s.pos])])
    case CUnlock => moved.(lock := s.lock + 1)
    case CPost => moved.(slots := s.slots + 1, received := s.received + multiset{me.item})
    case Idle => moved
  }

  function CallStep(s: State, t: nat, p: nat): State
    requires t < |s.th|
  {
    var me := s.th[t];
    if me.phase != Idle then s
    else if me.producer then
      s.(th := s.th[t := me.(phase := PWaitSlot, item := p)], sent := s.sent + multiset{p})
    else s.(th := s.th[t := me.(phase := CWaitItem)])
  }

  function Step(s: State, a: Action): State {
    if a.t >= |s.th| then s
    else
      match a
      case Call(t, p) => CallStep(s, t, p)
      case Run(t) => if CanRun(s, t) then RunStep(s, t) else s
  }

  // ----- the invariant -----

  predicate InLock(t: Thread) {
    match t.phase case PStore | PBump | PUnlock | CBump | CLoad | CUnlock => true case _ => false
  }

  /** Owns a free slot: taken by a producer that has not filled it, or emptied by a consumer. */
  predicate OwnsSlot(t: Thread) {
    match t.phase case PLock | PStore | PBump | CLoad | CUnlock | CPost => true case _ => false
  }

  /** Owns a stored pointer: filled and not announced, or claimed and not taken. */
  predicate OwnsItem(t: Thread) {
    match t.phase case PUnlock | PPost | CLock | CBump => true case _ => false
  }

  predicate RoleOk(t: Thread) {
    match t.phase
    case PWaitSlot | PLock | PStore | PBump | PUnlock | PPost => t.producer
    case CWaitItem | CLock | CBump | CLoad | CUnlock | CPost => !t.producer
    case Idle => true
  }

  datatype Tally = Tally(lock: nat, slots: nat, items: nat)

  function TallyOf(th: seq<Thread>): Tally { Tally(Count(th, InLock), Count(th, OwnsSlot), Count(th, OwnsItem)) }

  predicate Slots(s: State, y: Tally) {
    && s.lock + y.lock == 1
    && s.pos + s.slots + y.slots == |s.buffer|
    && s.pos == s.items + y.items
  }

  ghost predicate Inv(s: State) {
    && Slots(s, TallyOf(s.th))
    && (forall t :: 0 <= t < |s.th| ==> RoleOk(s.th[t]))
    && (forall t :: 0 <= t < |s.th| && s.th[t].phase.PBump? ==> s.pos < |s.buffer| && s.buffer[s.pos] == s.th[t].item)
  }

  lemma InPlace(s: State, t: nat)
    requires Slots(s, TallyOf(s.th)) && t < |s.th|
    ensures OwnsSlot(s.th[t]) ==> s.pos < |s.buffer|
    ensures OwnsItem(s.th[t]) ==> s.pos > 0
    ensures forall u :: 0 <= u < |s.th| && InLock(s.th[t]) && InLock(s.th[u]) ==> u == t
  {
    if OwnsSlot(s.th[t]) { CountTwo(s.th, OwnsSlot, t, t); }
    if OwnsItem(s.th[t]) { CountTwo(s.th, OwnsItem, t, t); }
    forall u | 0 <= u < |s.th| && InLock(s.th[t]) && InLock(s.th[u]) ensures u == t {
      CountTwo(s.th, InLock, t, u);
    }
  }

  lemma SlotsKept(s: State, t: nat, y: Tally, y': Tally)
    requires t < |s.th| && CanRun(s, t) && Slots(s, y)
    requires var a, b := s.th[t], s.th[t].(phase := NextPhase(s.th[t].phase));
      && y'.lock == y.lock - B(InLock(a)) + B(InLock(b))
      && y'.slots == y.slots - B(OwnsSlot(a)) + B(OwnsSlot(b))
      && y'.items == y.items - B(OwnsItem(a)) + B(OwnsItem(b))
    ensures Slots(RunStep(s, t), y')
  {
  }

  lemma RunKeepsInv(s: State, t: nat)
    requires Inv(s) && t < |s.th| && CanRun(s, t)
    ensures Inv(RunStep(s, t))
  {
    var s' := RunStep(s, t);
    CountUpdates(s.th, t, s'.th[t]);
    assert s'.th == s.th[t := s'.th[t]];
    SlotsKept(s, t, TallyOf(s.th), TallyOf(s'.th));
    InPlace(s, t);
    assert RoleOk(s.th[t]);
    forall u | 0 <= u < |s'.th| && s'.th[u].phase.PBump?
      ensures s'.pos < |s'.buffer| && s'.buffer[s'.pos] == s'.th[u].item
    {
      assert u != t ==> !InLock(s.th[t]);
    }
  }

  lemma CallKeepsInv(s: State, t: nat, p: nat)
    requires Inv(s) && t < |s.th|
    ensures Inv(CallStep(s, t, p))
  {
    var s' := CallStep(s, t, p);
    if s' != s {
      CountUpdates(s.th, t, s'.th[t]);
      assert s'.th == s.th[t := s'.th[t]];
    }
  }

  lemma StepKeepsInv(s: State, a: Action)
    requires Inv(s)
    ensures Inv(Step(s, a)) && |Step(s, a).th| == |s.th| && |Step(s, a).buffer| == |s.buffer|
  {
    if a.t < |s.th| {
      match a
      case Call(t, p) => CallKeepsInv(s, t, p);
      case Run(t) => if CanRun(s, t) { RunKeepsInv(s, t); }
    }
  }

  predicate Same(s: State, s': State) { |s'.th| == |s.th| && |s'.buffer| == |s.buffer| }

  lemma ReachableInv(size: nat, producers: seq<bool>, schedule: seq<Action>)
    ensures var s := Exec(Step, Init(size, producers), schedule);
            Inv(s) && |s.th| == |producers| && |s.buffer| == size
  {
    var s0 := Init(size, producers);
    CountBounds(s0.th, InLock);
    CountBounds(s0.th, OwnsSlot);
    CountBounds(s0.th, OwnsItem);
    forall s: State, a: Action | Inv(s) && Same(s0, s) ensures Inv(Step(s, a)) && Same(s0, Step(s, a)) {
      StepKeepsInv(s, a);
    }
    InvariantHolds(Step, (s: State) => Inv(s) && Same(s0, s), s0, schedule);
  }

  // ----- refinement -----

  /** What a thread is doing, seen from outside. */
  function ClientOf(s: State, t: Thread): Spec.Client {
    match t.phase
    case Idle => Spec.Idle
    case PWaitSlot | PLock | PStore | PBump => Spec.Sending(t.item)
    case PUnlock | PPost => Spec.Sent
    case CWaitItem | CLock | CBump => Spec.Receiving
    case CLoad => Spec.Got(if s.pos < |s.buffer| then s.buffer[s.pos] else 0)
    case CUnlock | CPost => Spec.Got(t.item)
  }

  function ClientsOf(s: State): seq<Spec.Client> {
    seq(|s.th|, t requires 0 <= t < |s.th| => ClientOf(s, s.th[t]))
  }

  function Abs(s: State): Spec.State {
    Spec.State(|s.buffer|, if s.pos <= |s.buffer| then s.buffer[..s.pos] else [], ClientsOf(s), s.sent, s.received)
  }

  /** The other clients look the same after a step of thread t. */
  lemma OthersSame(s: State, s': State, t: nat)
    requires Inv(s) && t < |s.th| == |s'.th| && s'.th == s.th[t := s'.th[t]]
    requires InLock(s.th[t]) || (s'.buffer == s.buffer && s'.pos == s.pos)
    ensures ClientsOf(s') == ClientsOf(s)[t := ClientOf(s', s'.th[t])]
  {
    InPlace(s, t);
    forall u | 0 <= u < |s.th| && u != t ensures ClientOf(s', s.th[u]) == ClientOf(s, s.th[u]) {
      assert InLock(s.th[t]) ==> !InLock(s.th[u]);
    }
  }

  /** The two steps that take effect on the stack. */
  lemma BumpRefines(s: State, t: nat)
    requires Inv(s) && t < |s.th| && (s.th[t].phase.PBump? || s.th[t].phase.CBump?) && CanRun(s, t)
    ensures Spec.Next(Abs(s), Abs(RunStep(s, t)), t)
  {
    var s' := RunStep(s, t);
    InPlace(s, t);
    OthersSame(s, s', t);
    if s.th[t].phase.PBump? {
      assert s'.buffer[..s'.pos] == s.buffer[..s.pos] + [s.th[t].item];
    } else {
      assert s.buffer[..s.pos] == s'.buffer[..s'.pos] + [s.buffer[s.pos - 1]];
    }
  }

  /** The others change nothing that can be seen but the return of a call. */
  lemma OtherRunRefines(s: State, t: nat)
    requires Inv(s) && t < |s.th| && !s.th[t].phase.PBump? && !s.th[t].phase.CBump? && CanRun(s, t)
    ensures Spec.Next(Abs(s), Abs(RunStep(s, t)), t)
  {
    var s' := RunStep(s, t);
    InPlace(s, t);
    OthersSame(s, s', t);
    assert s'.pos == s.pos && s'.buffer[..s.pos] == s.buffer[..s.pos];
    var before, after := ClientOf(s, s.th[t]), ClientOf(s', s'.th[t]);
    if s.th[t].phase.PPost? || s.th[t].phase.CPost? {
      assert after == Spec.Idle;
    } else {
      assert after == before;
      assert ClientsOf(s') == ClientsOf(s);
    }
  }

  lemma CallRefines(s: State, t: nat, p: nat)
    requires Inv(s) && t < |s.th|
    ensures Spec.Next(Abs(s), Abs(CallStep(s, t, p)), t)
  {
    var s' := CallStep(s, t, p);
    if s' != s {
      OthersSame(s, s', t);
    }
  }

  /** Each step of `enviar` or `recibir` is one atomic step on the stack, or invisible. */
  lemma StepRefines(s: State, a: Action)
    requires Inv(s)
    ensures Spec.Next(Abs(s), Abs(Step(s, a)), a.t)
  {
    if a.t < |s.th| {
      match a
      case Call(t, p) => CallRefines(s, t, p);
      case Run(t) =>
        if CanRun(s, t) {
          if s.th[t].phase.PBump? || s.th[t].phase.CBump? { BumpRefines(s, t); } else { OtherRunRefines(s, t); }
        }
    }
  }

  /** In every run what has been sent has been received, is stored or is in a thread's hands, exactly
      once, and the array never holds more than its size. */
  lemma {:induction false} Conservation(size: nat, producers: seq<bool>, schedule: seq<Action>)
    ensures Spec.Conserved(Abs(Exec(Step, Init(size, producers), schedule)))
    decreases |schedule|
  {
    var s0 := Init(size, producers);
    if schedule == [] {
      forall p: nat ensures Spec.Accounted(Abs(s0), p) { Spec.NothingCarried(ClientsOf(s0), p); }
    } else {
      var before := schedule[..|schedule| - 1];
      Conservation(size, producers, before);
      ReachableInv(size, producers, before);
      StepRefines(Exec(Step, s0, before), schedule[|schedule| - 1]);
      Spec.NextConserves(Abs(Exec(Step, s0, before)), Abs(Exec(Step, s0, schedule)), schedule[|schedule| - 1].t);
    }
  }

  /** Whoever is about to write or read a cell, or to lower pos_buffer, is inside the array; the guards on
      these steps never hold anybody up. */
  lemma NeverOutOfBounds(size: nat, producers: seq<bool>, schedule: seq<Action>, t: nat)
    requires t < |producers|
    ensures var s := Exec(Step, Init(size, producers), schedule);
      && |s.th| == |producers| && |s.buffer| == size
      && (s.th[t].phase.PStore? || s.th[t].phase.CLoad? ==> s.pos < size)
      && (s.th[t].phase.CBump? ==> s.pos > 0)
  {
    ReachableInv(size, producers, schedule);
    InPlace(Exec(Step, Init(size, producers), schedule), t);
  }

  /** The slot count is conserved, and with a producer and a consumer not everybody can be blocked. */
  lemma NeverAllBlocked(size: nat, producers: seq<bool>, schedule: seq<Action>) returns (t: nat)
    requires size > 0 && true in producers && false in producers
    ensures var s := Exec(Step, Init(size, producers), schedule);
      && s.slots + s.items + Count(s.th, OwnsSlot) + Count(s.th, OwnsItem) == size
      && t < |s.th| && (s.th[t].phase == Idle || CanRun(s, t))
  {
    ReachableInv(size, producers, schedule);
    SameRoles(size, producers, schedule);
    var s := Exec(Step, Init(size, producers), schedule);
    var p :| 0 <= p < |producers| && producers[p];
    var c :| 0 <= c < |producers| && !producers[c];
    InPlace(s, p);
    InPlace(s, c);
    assert RoleOk(s.th[p]) && RoleOk(s.th[c]);
    if Count(s.th, InLock) > 0 {
      t := CountWitness(s.th, InLock);
      InPlace(s, t);
    } else if Count(s.th, OwnsSlot) > 0 {
      t := CountWitness(s.th, OwnsSlot);
      InPlace(s, t);
    } else if Count(s.th, OwnsItem) > 0 {
      t := CountWitness(s.th, OwnsItem);
      InPlace(s, t);
    } else {
      t := if s.slots > 0 then p else c;
    }
  }

  lemma RolesKept(s: State, a: Action)
    ensures |Step(s, a).th| == |s.th| && forall t :: 0 <= t < |s.th| ==> Step(s, a).th[t].producer == s.th[t].producer
  {
  }

  lemma {:induction false} SameRoles(size: nat, producers: seq<bool>, schedule: seq<Action>)
    ensures var s := Exec(Step, Init(size, producers), schedule);
            |s.th| == |producers| && forall t :: 0 <= t < |s.th| ==> s.th[t].producer == producers[t]
    decreases |schedule|
  {
    if schedule != [] {
      SameRoles(size, producers, schedule[..|schedule| - 1]);
      RolesKept(Exec(Step, Init(size, producers), schedule[..|schedule| - 1]), schedule[|schedule| - 1]);
    }
  }

  // ----- who has to wait, and what a call does -----

  /** A producer waits for its slot exactly when the pointers stored and the slots in other threads' hands are
      all there are. */
  lemma ProducerWaitsIff(size: nat, producers: seq<bool>, schedule: seq<Action>, t: nat)
    requires var s := Exec(Step, Init(size, producers), schedule); t < |s.th| && s.th[t].phase.PWaitSlot?
    ensures var s := Exec(Step, Init(size, producers), schedule);
      !CanRun(s, t) <==> s.pos + Count(s.th, OwnsSlot) == size
  {
    ReachableInv(size, producers, schedule);
  }

  /** A consumer waits for a pointer exactly when each one stored is claimed by another or not announced yet. */
  lemma ConsumerWaitsIff(size: nat, producers: seq<bool>, schedule: seq<Action>, t: nat)
    requires var s := Exec(Step, Init(size, producers), schedule); t < |s.th| && s.th[t].phase.CWaitItem?
    ensures var s := Exec(Step, Init(size, producers), schedule);
      !CanRun(s, t) <==> s.pos == Count(s.th, OwnsItem)
  {
    ReachableInv(size, producers, schedule);
  }

  /** The state after k of the six steps of enviar, taken alone. */
  function SendMid(s: State, t: nat, k: nat): State
    requires t < |s.th| && s.pos < |s.buffer| && s.slots > 0 && k <= 6
  {
    var me := s.th[t];
    var phase := match k
      case 0 => PWaitSlot case 1 => PLock case 2 => PStore case 3 => PBump case 4 => PUnlock case 5 => PPost case _ => Idle;
    s.(slots := if k >= 1 then s.slots - 1 else s.slots,
       lock := if 2 <= k < 5 then 0 else 1,
       buffer := if k >= 3 then s.buffer[s.pos := me.item] else s.buffer,
       pos := if k >= 4 then s.pos + 1 else s.pos,
       items := if k >= 6 then s.items + 1 else s.items,
       th := s.th[t := me.(phase := phase)])
  }

  lemma SendMidStep(s: State, t: nat, k: nat)
    requires t < |s.th| && s.pos < |s.buffer| && s.slots > 0 && k < 6
    ensures Step(SendMid(s, t, k), Run(t)) == SendMid(s, t, k + 1)
  {
    var x, y := SendMid(s, t, k), SendMid(s, t, k + 1);
    assert CanRun(x, t) && RunStep(x, t).th == y.th;
  }

  /** With a slot and the lock free a producer's own six steps complete its call: the pointer is on top of the
      stack, and everything else but the slot and item counts is as before. */
  lemma SendsAlone(s: State, t: nat)
    requires Inv(s) && t < |s.th| && s.th[t].phase.PWaitSlot? && s.slots > 0 && s.lock == 1
    ensures s.pos < |s.buffer|
    ensures var s' := SendMid(s, t, 6);
      && Reaches(Step, s, s') && Inv(s') && s'.th == s.th[t := s.th[t].(phase := Idle)]
      && s'.buffer[..s'.pos] == s.buffer[..s.pos] + [s.th[t].item]
      && s'.slots == s.slots - 1 && s'.items == s.items + 1 && s'.lock == 1
      && s'.sent == s.sent && s'.received == s.received
  {
    assert SendMid(s, t, 0) == s;
    ReachesSelf(Step, s);
    for k := 0 to 6
      invariant Reaches(Step, s, SendMid(s, t, k)) && Inv(SendMid(s, t, k))
    {
      SendMidStep(s, t, k);
      ReachesStep(Step, s, SendMid(s, t, k), Run(t));
      StepKeepsInv(SendMid(s, t, k), Run(t));
    }
  }

  /** The state after k of the six steps of recibir, taken alone. */
  function ReceiveMid(s: State, t: nat, k: nat): State
    requires t < |s.th| && 0 < s.pos <= |s.buffer| && s.items > 0 && k <= 6
  {
    var me, p := s.th[t], s.buffer[s.pos - 1];
    var phase := match k
      case 0 => CWaitItem case 1 => CLock case 2 => CBump case 3 => CLoad case 4 => CUnlock case 5 => CPost case _ => Idle;
    s.(items := if k >= 1 then s.items - 1 else s.items,
       lock := if 2 <= k < 5 then 0 else 1,
       pos := if k >= 3 then s.pos - 1 else s.pos,
       slots := if k >= 6 then s.slots + 1 else s.slots,
       received := if k >= 6 then s.received + multiset{p} else s.received,
       th := s.th[t := me.(phase := phase, item := if k >= 4 then p else me.item)])
  }

  lemma ReceiveMidStep(s: State, t: nat, k: nat)
    requires t < |s.th| && 0 < s.pos <= |s.buffer| && s.items > 0 && k < 6
    ensures Step(ReceiveMid(s, t, k), Run(t)) == ReceiveMid(s, t, k + 1)
  {
    var x, y := ReceiveMid(s, t, k), ReceiveMid(s, t, k + 1);
    assert CanRun(x, t) && RunStep(x, t).th == y.th;
  }

  /** With an item and the lock free a consumer's own six steps return the pointer on top of the stack. */
  lemma ReceivesAlone(s: State, t: nat)
    requires Inv(s) && t < |s.th| && s.th[t].phase.CWaitItem? && s.items > 0 && s.lock == 1
    ensures 0 < s.pos <= |s.buffer|
    ensures var s', p := ReceiveMid(s, t, 6), s.buffer[s.pos - 1];
      && Reaches(Step, s, s') && Inv(s') && s'.th == s.th[t := s.th[t].(phase := Idle, item := p)]
      && s.buffer[..s.pos] == s'.buffer[..s'.pos] + [p] && s'.received == s.received + multiset{p}
      && s'.slots == s.slots + 1 && s'.items == s.items - 1 && s'.lock == 1 && s'.sent == s.sent
  {
    CountBounds(s.th, OwnsSlot);
    assert ReceiveMid(s, t, 0) == s;
    ReachesSelf(Step, s);
    for k := 0 to 6
      invariant Reaches(Step, s, ReceiveMid(s, t, k)) && Inv(ReceiveMid(s, t, k))
    {
      ReceiveMidStep(s, t, k);
      ReachesStep(Step, s, ReceiveMid(s, t, k), Run(t));
      StepKeepsInv(ReceiveMid(s, t, k), Run(t));
    }
  }

  lemma CallsIdle(s: State, t: nat, p: nat)
    requires Inv(s) && t < |s.th| && s.th[t].phase.Idle? && s.th[t].producer
    ensures var s' := Step(s, Call(t, p));
      && Reaches(Step, s, s') && Inv(s')
      && s' == s.(th := s.th[t := s.th[t].(phase := PWaitSlot, item := p)], sent := s.sent + multiset{p})
  {
    ReachesSelf(Step, s);
    ReachesStep(Step, s, s, Call(t, p));
    StepKeepsInv(s, Call(t, p));
  }

  function Stored(s: State): seq<nat> { if s.pos <= |s.buffer| then s.buffer[..s.pos] else [] }

  /** Thread t is a producer between two calls, and nobody holds the lock. */
  predicate MaySend(s: State, t: nat) { t < |s.th| && s.th[t].phase.Idle? && s.th[t].producer && s.lock == 1 }

  /** One whole call of enviar. */
  lemma SendsOne(s: State, t: nat, p: nat) returns (s': State)
    requires Inv(s) && MaySend(s, t) && s.slots > 0
    ensures Reaches(Step, s, s') && Inv(s') && MaySend(s', t)
    ensures Stored(s') == Stored(s) + [p] && s'.slots == s.slots - 1
  {
    CallsIdle(s, t, p);
    var s1 := Step(s, Call(t, p));
    SendsAlone(s1, t);
    s' := SendMid(s1, t, 6);
    ReachesTrans(Step, s, s1, s');
  }

  lemma AppendRest(a: seq<nat>, b: seq<nat>, c: seq<nat>, ps: seq<nat>)
    requires ps != [] && b == a + [ps[0]] && c == b + ps[1..]
    ensures c == a + ps
  {
  }

  /** A producer alone stores as many pointers as there are slots, one call after another. */
  lemma {:induction false} FillsAlone(s: State, t: nat, ps: seq<nat>) returns (s': State)
    requires Inv(s) && MaySend(s, t) && |ps| <= s.slots
    ensures Reaches(Step, s, s') && Stored(s') == Stored(s) + ps && s'.slots == s.slots - |ps|
    decreases |ps|
  {
    if ps == [] {
      s' := s;
      ReachesSelf(Step, s);
    } else {
      var s1 := SendsOne(s, t, ps[0]);
      s' := FillsAlone(s1, t, ps[1..]);
      ReachesTrans(Step, s, s1, s');
      AppendRest(Stored(s), Stored(s1), Stored(s'), ps);
    }
  }

  /** So a producer alone fills the whole buffer before it has to wait. */
  lemma BufferCanFill(size: nat, producers: seq<bool>, t: nat, ps: seq<nat>) returns (s': State)
    requires t < |producers| && producers[t] && |ps| == size
    ensures Reaches(Step, Init(size, producers), s') && Abs(s').stack == ps && s'.slots == 0
  {
    ReachableInv(size, producers, []);
    s' := FillsAlone(Init(size, producers), t, ps);
    assert Stored(s') == [] + ps == ps;
  }

  // ----- the program itself -----

  /** buffer, pos_buffer and the three semaphores, changed in place; what has been sent and received is
      ghost here. */
  class Program {
    const buffer: array<nat>
    const th: array<Thread>
    var pos: nat
    var slots: nat
    var items: nat
    var lock: nat
    ghost var sent: multiset<nat>
    ghost var received: multiset<nat>

    ghost function View(): State
      reads this, buffer, th
    {
      State(buffer[..], pos, slots, items, lock, th[..], sent, received)
    }

    constructor (size: nat, producers: seq<bool>)
      ensures fresh(buffer) && fresh(th) && View() == Init(size, producers)
    {
      buffer := new nat[size](_ => 0);
      th := new Thread[|producers|](t requires 0 <= t < |producers| => Thread(producers[t], Idle, 0));
      pos, slots, items, lock := 0, size, 0, 1;
      sent, received := multiset{}, multiset{};
      new;
      assert th[..] == Init(size, producers).th;
    }

    method CallOf(t: nat, p: nat)
      requires t < th.Length
      modifies this`sent, th
      ensures View() == CallStep(old(View()), t, p)
    {
      var me := th[t];
      if me.phase == Idle {
        if me.producer {
          th[t] := me.(phase := PWaitSlot, item := p);
          sent := sent + multiset{p};
        } else {
          th[t] := me.(phase := CWaitItem);
        }
      }
    }

    /** The next step of enviar. */
    method Enviar(t: nat)
      requires t < th.Length && CanRun(View(), t)
      requires match th[t].phase case PWaitSlot | PLock | PStore | PBump | PUnlock | PPost => true case _ => false
      modifies this, buffer, th
      ensures View() == RunStep(old(View()), t)
    {
      var me := th[t];
      match me.phase {
        case PWaitSlot => slots := slots - 1; th[t] := me.(phase := PLock);
        case PLock => lock := lock - 1; th[t] := me.(phase := PStore);
        case PStore => buffer[pos] := me.item; th[t] := me.(phase := PBump);
        case PBump => pos := pos + 1; th[t] := me.(phase := PUnlock);
        case PUnlock => lock := lock + 1; th[t] := me.(phase := PPost);
        case PPost => items := items + 1; th[t] := me.(phase := Idle);
      }
    }

    /** The next step of recibir. */
    method Recibir(t: nat)
      requires t < th.Length && CanRun(View(), t)
      requires match th[t].phase case CWaitItem | CLock | CBump | CLoad | CUnlock | CPost => true case _ => false
      modifies this, th
      ensures View() == RunStep(old(View()), t)
    {
      var me := th[t];
      match me.phase {
        case CWaitItem => items := items - 1; th[t] := me.(phase := CLock);
        case CLock => lock := lock - 1; th[t] := me.(phase := CBump);
        case CBump => pos := pos - 1; th[t] := me.(phase := CLoad);
        case CLoad => th[t] := me.(phase := CUnlock, item := buffer[pos]);
        case CUnlock => lock := lock + 1; th[t] := me.(phase := CPost);
        case CPost =>
          slots := slots + 1;
          th[t] := me.(phase := Idle);
          received := received + multiset{me.item};
      }
    }

    method Act(a: Action)
      requires a.t < th.Length && Inv(View())
      modifies this, buffer, th
      ensures View() == Step(old(View()), a) && Inv(View())
    {
      StepKeepsInv(View(), a);
      match a {
        case Call(t, p) => CallOf(t, p);
        case Run(t) =>
          match th[t].phase {
            case Idle =>
            case PWaitSlot => if slots > 0 { Enviar(t); }
            case PLock => if lock > 0 { Enviar(t); }
            case PStore => if pos < buffer.Length { Enviar(t); }
            case PBump | PUnlock | PPost => Enviar(t);
            case CWaitItem => if items > 0 { Recibir(t); }
            case CLock => if lock > 0 { Recibir(t); }
            case CBump => if pos > 0 { Recibir(t); }
            case CLoad => if pos < buffer.Length { Recibir(t); }
            case CUnlock | CPost => Recibir(t);
          }
      }
    }

    /** Any schedule: no pointer is lost or delivered twice. */
    method Run(schedule: seq<Action>, ghost producers: seq<bool>)
      requires View() == Init(buffer.Length, producers) && forall k :: 0 <= k < |schedule| ==> schedule[k].t < th.Length
      modifies this, buffer, th
      ensures View() == Exec(Step, old(View()), schedule) && Spec.Conserved(Abs(View()))
    {
      ghost var s0 := View();
      ReachableInv(buffer.Length, producers, []);
      for k := 0 to |schedule|
        invariant View() == Exec(Step, s0, schedule[..k]) && Inv(View())
      {
        ExecOne(Step, s0, schedule[..k], schedule[k]);
        assert schedule[..k + 1] == schedule[..k] + [schedule[k]];
        Act(schedule[k]);
      }
      assert schedule[..|schedule|] == schedule;
      Conservation(buffer.Length, producers, schedule);
    }
  }
}
