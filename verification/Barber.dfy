/** The sleeping barber of `sembarb.c`: one barber, any number of client threads, a ring of chairs,
    and the semaphores between them.  Each step is one semaphore operation or one access to the shared
    variables `pos`, `sig`, `clientes`, `turno`; the client loop at `turno[sig] != num` passes the
    `sem_barbero` token on until the right client holds it. */
module Barber {
  import opened Runs
  import opened Counting

  datatype BarberPhase =
    | WaitClient      // sem_wait(&sem_clientes)
    | CallClient      // sem_post(&sem_barbero)
    | WaitAssigned    // sem_wait(&sem_asignado)
    | StartCut        // sem_post(&sem_cortando)
    | Cutting         // cortando(turno[sig])
    | WaitPay         // sem_wait(&sem_pagando)
    | Paid            // me_pagan()
    | LockTurn        // sem_wait(&sem_mutex)
    | Bump            // sig++
    | Wrap            // sig = sig % SILLAS
    | UnlockTurn      // sem_post(&sem_mutex)

  datatype ClientPhase =
    | Outside
    | Lock            // sem_wait(&sem_mutex)
    | TestFull        // clientes == SILLAS ?
    | FullUnlock      // sem_post(&sem_mutex); return
    | Enter           // clientes++
    | Sit             // turno[pos] = num
    | MovePos         // pos = (pos + 1) % SILLAS
    | Unlock          // sem_post(&sem_mutex)
    | Notify          // sem_post(&sem_clientes)
    | WaitBarber      // sem_wait(&sem_barbero)
    | TestTurn        // turno[sig] != num ?
    | PassOn          // sem_post(&sem_barbero) inside the loop
    | WaitAgain       // sem_wait(&sem_barbero) inside the loop
    | LockLeave       // sem_wait(&sem_mutex)
    | LeaveChair      // clientes--
    | UnlockLeave     // sem_post(&sem_mutex)
    | Assigned        // sem_post(&sem_asignado)
    | WaitCut         // sem_wait(&sem_cortando)
    | BeingCut        // me_cortan(num)
    | Pay             // sem_post(&sem_pagando)
    | Paying          // pagando(num)

  datatype Client = Client(phase: ClientPhase, num: nat)

  datatype Semaphores = Semaphores(mutex: nat, clientes: nat, barbero: nat, asignado: nat, cortando: nat, pagando: nat)

  /** The last four components record the history: the ids in the order they sat down and in the order
      they were admitted, the threads seated and not admitted yet, and the haircuts finished. */
  datatype State = State(
    sillas: nat, pos: nat, sig: nat, clientes: nat, turno: seq<nat>, sem: Semaphores,
    barber: BarberPhase, cl: seq<Client>,
    seated: seq<nat>, admitted: seq<nat>, queue: seq<nat>, rounds: nat)

  /** Arrive(t, id): thread t enters `clientes_func` with an id that no live client has. */
  datatype Action = Work | Act(t: nat) | Arrive(t: nat, id: nat)

  function Init(sillas: nat, threads: nat): State {
    State(sillas, 0, 0, 0, seq(sillas, _ => 0), Semaphores(1, 0, 0, 0, 0, 0), WaitClient,
          seq(threads, _ => Client(Outside, 0)), [], [], [], 0)
  }

  function BarberStep(s: State): State {
    match s.barber
    case WaitClient =>
      if s.sem.clientes == 0 then s else s.(barber := CallClient, sem := s.sem.(clientes := s.sem.clientes - 1))
    case CallClient => s.(barber := WaitAssigned, sem := s.sem.(barbero := s.sem.barbero + 1))
    case WaitAssigned =>
      if s.sem.asignado == 0 then s else s.(barber := StartCut, sem := s.sem.(asignado := s.sem.asignado - 1))
    case StartCut => s.(barber := Cutting, sem := s.sem.(cortando := s.sem.cortando + 1))
    case Cutting => s.(barber := WaitPay)
    case WaitPay =>
      if s.sem.pagando == 0 then s else s.(barber := Paid, sem := s.sem.(pagando := s.sem.pagando - 1))
    case Paid => s.(barber := LockTurn)
    case LockTurn =>
      if s.sem.mutex == 0 then s else s.(barber := Bump, sem := s.sem.(mutex := s.sem.mutex - 1))
    case Bump => s.(barber := Wrap, sig := s.sig + 1)
    case Wrap => if s.sillas == 0 then s else s.(barber := UnlockTurn, sig := s.sig % s.sillas, rounds := s.rounds + 1)
    case UnlockTurn => s.(barber := WaitClient, sem := s.sem.(mutex := s.sem.mutex + 1))
  }

  /** The client's next phase, and unchanged when a semaphore makes it wait. */
  function NextPhase(s: State, t: nat): ClientPhase
    requires t < |s.cl|
  {
    match s.cl[t].phase
    case Outside => Outside
    case Lock => if s.sem.mutex == 0 then Lock else TestFull
    case TestFull => if s.clientes == s.sillas then FullUnlock else Enter
    case FullUnlock => Outside
    case Enter => Sit
    case Sit => MovePos
    case MovePos => Unlock
    case Unlock => Notify
    case Notify => WaitBarber
    case WaitBarber => if s.sem.barbero == 0 then WaitBarber else TestTurn
    case TestTurn => if s.sig < |s.turno| && s.turno[s.sig] == s.cl[t].num then LockLeave else PassOn
    case PassOn => WaitAgain
    case WaitAgain => if s.sem.barbero == 0 then WaitAgain else TestTurn
    case LockLeave => if s.sem.mutex == 0 then LockLeave else LeaveChair
    case LeaveChair => UnlockLeave
    case UnlockLeave => Assigned
    case Assigned => WaitCut
    case WaitCut => if s.sem.cortando == 0 then WaitCut else BeingCut
    case BeingCut => Pay
    case Pay => Paying
    case Paying => Outside
  }

  function ClientSem(s: State, t: nat): Semaphores
    requires t < |s.cl|
  {
    var m := s.sem;
    match s.cl[t].phase
    case Lock => if m.mutex == 0 then m else m.(mutex := m.mutex - 1)
    case FullUnlock => m.(mutex := m.mutex + 1)
    case Unlock => m.(mutex := m.mutex + 1)
    case Notify => m.(clientes := m.clientes + 1)
    case WaitBarber => if m.barbero == 0 then m else m.(barbero := m.barbero - 1)
    case PassOn => m.(barbero := m.barbero + 1)
    case WaitAgain => if m.barbero == 0 then m else m.(barbero := m.barbero - 1)
    case LockLeave => if m.mutex == 0 then m else m.(mutex := m.mutex - 1)
    case UnlockLeave => m.(mutex := m.mutex + 1)
    case Assigned => m.(asignado := m.asignado + 1)
    case WaitCut => if m.cortando == 0 then m else m.(cortando := m.cortando - 1)
    case Pay => m.(pagando := m.pagando + 1)
    case _ => m
  }

  /** Everything but the client's own phase and the semaphores. */
  function ClientEffect(s: State, t: nat): State
    requires t < |s.cl|
  {
    var num := s.cl[t].num;
    match s.cl[t].phase
    case Enter => s.(clientes := s.clientes + 1)
    case Sit =>
      s.(turno := if s.pos < |s.turno| then s.turno[s.pos := num] else s.turno,
         seated := s.seated + [num], queue := s.queue + [t])
    case MovePos => if s.sillas == 0 then s else s.(pos := (s.pos + 1) % s.sillas)
    case TestTurn =>
      if NextPhase(s, t) == LockLeave && s.queue != []
      then s.(admitted := s.admitted + [num], queue := s.queue[1..]) else s
    case LeaveChair => s.(clientes := if s.clientes > 0 then s.clientes - 1 else 0)
    case _ => s
  }

  function ClientStep(s: State, t: nat): State
    requires t < |s.cl|
  {
    ClientEffect(s, t).(sem := ClientSem(s, t), cl := s.cl[t := s.cl[t].(phase := NextPhase(s, t))])
  }

  predicate Live(c: Client) { c.phase != Outside }

  function Step(s: State, a: Action): State {
    match a
    case Work => BarberStep(s)
    case Act(t) => if t < |s.cl| then ClientStep(s, t) else s
    case Arrive(t, id) =>
      if t < |s.cl| && !Live(s.cl[t]) && forall u :: 0 <= u < |s.cl| && Live(s.cl[u]) ==> s.cl[u].num != id
      then s.(cl := s.cl[t := Client(Lock, id)]) else s
  }

  // ----- where a client is -----

  predicate HoldsMutex(c: Client) {
    match c.phase
    case TestFull | FullUnlock | Enter | Sit | MovePos | Unlock | LeaveChair | UnlockLeave => true
    case _ => false
  }

  /** Seated and not admitted yet. */
  predicate Queued(c: Client) {
    match c.phase
    case MovePos | Unlock | Notify | WaitBarber | TestTurn | PassOn | WaitAgain => true
    case _ => false
  }

  predicate HasToken(c: Client) { c.phase.TestTurn? || c.phase.PassOn? }

  predicate Sitting(c: Client) { c.phase.Sit? }

  predicate MovingPos(c: Client) { c.phase.MovePos? }

  /** Admitted, its chair still counted as taken. */
  predicate StillSeated(c: Client) { c.phase.LockLeave? || c.phase.LeaveChair? }

  /** Admitted, the barber not told yet. */
  predicate Admitting(c: Client) {
    c.phase.LockLeave? || c.phase.LeaveChair? || c.phase.UnlockLeave? || c.phase.Assigned?
  }

  /** Has woken the barber and is not assigned yet. */
  predicate Calling(c: Client) {
    c.phase.WaitBarber? || c.phase.TestTurn? || c.phase.PassOn? || c.phase.WaitAgain? || Admitting(c)
  }

  predicate AwaitsCut(c: Client) { c.phase.WaitCut? }

  predicate InChair(c: Client) { c.phase.BeingCut? || c.phase.Pay? }

  /** How many clients are in each of those places. */
  datatype Tally = Tally(
    mutex: nat, token: nat, admitting: nat, calling: nat, awaiting: nat, inChair: nat,
    sitting: nat, moving: nat, still: nat)

  function TallyOf(cl: seq<Client>): Tally {
    Tally(Count(cl, HoldsMutex), Count(cl, HasToken), Count(cl, Admitting), Count(cl, Calling), Count(cl, AwaitsCut),
          Count(cl, InChair), Count(cl, Sitting), Count(cl, MovingPos), Count(cl, StillSeated))
  }

  /** y' is y after one client has changed from a to b. */
  predicate Shifted(y: Tally, y': Tally, a: Client, b: Client) {
    && y'.mutex == y.mutex - B(HoldsMutex(a)) + B(HoldsMutex(b))
    && y'.token == y.token - B(HasToken(a)) + B(HasToken(b))
    && y'.admitting == y.admitting - B(Admitting(a)) + B(Admitting(b))
    && y'.calling == y.calling - B(Calling(a)) + B(Calling(b))
    && y'.awaiting == y.awaiting - B(AwaitsCut(a)) + B(AwaitsCut(b))
    && y'.inChair == y.inChair - B(InChair(a)) + B(InChair(b))
    && y'.sitting == y.sitting - B(Sitting(a)) + B(Sitting(b))
    && y'.moving == y.moving - B(MovingPos(a)) + B(MovingPos(b))
    && y'.still == y.still - B(StillSeated(a)) + B(StillSeated(b))
  }

  // ----- the invariant -----

  /** Who holds the mutex, and where the tokens of the other semaphores are. */
  predicate Tokens(m: Semaphores, b: BarberPhase, y: Tally) {
    && m.mutex + y.mutex + B(b.Bump? || b.Wrap? || b.UnlockTurn?) == 1
    && m.barbero + y.token + y.admitting + m.asignado == B(b.WaitAssigned?)
    && y.awaiting == m.asignado + B(b.StartCut?) + m.cortando
    && m.cortando + y.inChair + m.pagando == B(b.Cutting? || b.WaitPay?)
    && m.clientes + B(b.CallClient? || b.WaitAssigned?) == y.calling + m.asignado
  }

  /** Some places are part of others. */
  predicate Nested(y: Tally) {
    y.sitting + y.moving <= y.mutex && y.still <= y.admitting && y.token + y.admitting <= y.calling
  }

  lemma TallyNested(cl: seq<Client>)
    ensures Nested(TallyOf(cl))
  {
    CountWithin(cl, Sitting, MovingPos, HoldsMutex);
    CountWithin(cl, StillSeated, (c: Client) => false, Admitting);
    CountWithin(cl, HasToken, Admitting, Calling);
  }

  /** A haircut is under way: its client is admitted and `sig` has not moved on yet. */
  predicate Serving(b: BarberPhase) {
    b.StartCut? || b.Cutting? || b.WaitPay? || b.Paid? || b.LockTurn? || b.Bump? || b.Wrap?
  }

  predicate Chairs(s: State, y: Tally) {
    && s.clientes == |s.queue| + y.still + y.sitting
    && s.clientes <= s.sillas
    && |s.admitted| == s.rounds + y.admitting + s.sem.asignado + B(Serving(s.barber))
  }

  /** Whoever is about to sit down has found a free chair, under the mutex. */
  predicate Room(s: State) {
    forall t :: 0 <= t < |s.cl| && s.cl[t].phase == Enter ==> s.clientes < s.sillas
  }

  predicate Distinct(cl: seq<Client>) {
    forall t, u :: 0 <= t < u < |cl| && Live(cl[t]) && Live(cl[u]) ==> cl[t].num != cl[u].num
  }

  /** The queue lists the seated clients not admitted yet, in the order they sat; the admitted ones are
      the others, in the same order. */
  predicate Line(cl: seq<Client>, seated: seq<nat>, admitted: seq<nat>, queue: seq<nat>) {
    && |seated| == |admitted| + |queue|
    && admitted == seated[..|admitted|]
    && (forall k :: 0 <= k < |queue| ==> queue[k] < |cl| && Queued(cl[queue[k]]))
    && (forall k :: 0 <= k < |queue| ==> seated[|admitted| + k] == cl[queue[k]].num)
    && (forall t :: 0 <= t < |cl| && Queued(cl[t]) ==> t in queue)
    && (forall j, k :: 0 <= j < k < |queue| ==> queue[j] != queue[k])
  }

  /** The chair of the k-th client to sit, and of the k-th to be served. */
  function Chair(k: nat, n: nat): (c: nat)
    requires n > 0
    ensures c < n
  {
    if k == 0 then 0 else if Chair(k - 1, n) + 1 == n then 0 else Chair(k - 1, n) + 1
  }

  /** Fewer than n clients apart means different chairs. */
  lemma {:induction false} ChairsApart(j: nat, d: nat, n: nat)
    requires d <= n && n > 0
    ensures Chair(j + d, n) == if Chair(j, n) + d < n then Chair(j, n) + d else Chair(j, n) + d - n
    decreases d
  {
    if d > 0 {
      ChairsApart(j, d - 1, n);
    }
  }

  /** From the lo-th on, whoever sat down is named by their chair. */
  predicate Window(turno: seq<nat>, seated: seq<nat>, lo: nat)
    requires |turno| > 0
  {
    forall k :: lo <= k < |seated| ==> turno[Chair(k, |turno|)] == seated[k]
  }

  /** Where pos and sig are, and what the chairs hold. */
  predicate Ring(s: State, y: Tally) {
    && s.sillas > 0 && |s.turno| == s.sillas
    && y.moving <= |s.seated|
    && s.pos == Chair(|s.seated| - y.moving, s.sillas)
    && s.sig == Chair(s.rounds, s.sillas) + B(s.barber.Wrap?)
    && y.still <= |s.admitted| <= |s.seated|
    && Window(s.turno, s.seated, |s.admitted| - y.still)
  }

  ghost predicate Inv(s: State) {
    var y := TallyOf(s.cl);
    Tokens(s.sem, s.barber, y) && Chairs(s, y) && Room(s) && Distinct(s.cl) && Line(s.cl, s.seated, s.admitted, s.queue) && Ring(s, y)
  }

  // ----- it is kept -----

  lemma BarberKeepsTokens(s: State, y: Tally)
    requires Tokens(s.sem, s.barber, y)
    ensures var s' := BarberStep(s); Tokens(s'.sem, s'.barber, y)
  {
  }

  lemma BarberKeepsChairs(s: State, y: Tally)
    requires Chairs(s, y) && Ring(s, y)
    ensures Chairs(BarberStep(s), y)
  {
  }

  lemma BarberKeepsRing(s: State, y: Tally)
    requires Ring(s, y)
    ensures Ring(BarberStep(s), y)
  {
    var s' := BarberStep(s);
    assert s'.turno == s.turno && s'.seated == s.seated && s'.admitted == s.admitted && s'.pos == s.pos;
    if s.barber.Wrap? {
      assert s.sig % s.sillas == Chair(s.rounds + 1, s.sillas) by { Remainder(s.sig, s.sillas); }
    }
  }

  lemma Remainder(x: nat, n: nat)
    requires 0 < n && x <= n
    ensures x % n == if x == n then 0 else x
  {
  }

  lemma BarberKeepsRest(s: State)
    requires Room(s)
    ensures var s' := BarberStep(s);
      && Room(s') && s'.cl == s.cl && s'.seated == s.seated && s'.admitted == s.admitted && s'.queue == s.queue
      && s'.sillas == s.sillas
  {
  }

  lemma BarberKeepsInv(s: State)
    requires Inv(s)
    ensures Inv(BarberStep(s))
  {
    var y := TallyOf(s.cl);
    BarberKeepsTokens(s, y);
    BarberKeepsChairs(s, y);
    BarberKeepsRing(s, y);
    BarberKeepsRest(s);
  }

  lemma Moves(cl: seq<Client>, t: nat, c: Client)
    requires t < |cl|
    ensures Shifted(TallyOf(cl), TallyOf(cl[t := c]), cl[t], c)
  {
    CountUpdate(cl, t, c, HoldsMutex);
    CountUpdate(cl, t, c, HasToken);
    CountUpdate(cl, t, c, Admitting);
    CountUpdate(cl, t, c, Calling);
    CountUpdate(cl, t, c, AwaitsCut);
    CountUpdate(cl, t, c, InChair);
    CountUpdate(cl, t, c, Sitting);
    CountUpdate(cl, t, c, MovingPos);
    CountUpdate(cl, t, c, StillSeated);
  }

  /** A client in a place is counted there. */
  lemma InPlace(cl: seq<Client>, t: nat)
    requires t < |cl|
    ensures var y := TallyOf(cl);
      && (HoldsMutex(cl[t]) ==> y.mutex > 0) && (HasToken(cl[t]) ==> y.token > 0)
      && (Admitting(cl[t]) ==> y.admitting > 0) && (AwaitsCut(cl[t]) ==> y.awaiting > 0)
      && (InChair(cl[t]) ==> y.inChair > 0) && (Calling(cl[t]) ==> y.calling > 0)
  {
    if HoldsMutex(cl[t]) { CountTwo(cl, HoldsMutex, t, t); }
    if HasToken(cl[t]) { CountTwo(cl, HasToken, t, t); }
    if Admitting(cl[t]) { CountTwo(cl, Admitting, t, t); }
    if AwaitsCut(cl[t]) { CountTwo(cl, AwaitsCut, t, t); }
    if InChair(cl[t]) { CountTwo(cl, InChair, t, t); }
    if Calling(cl[t]) { CountTwo(cl, Calling, t, t); }
  }

  /** Under the mutex nobody else is between testing the chairs and sitting down. */
  lemma OneUnderMutex(cl: seq<Client>, t: nat, u: nat)
    requires t < |cl| && u < |cl| && HoldsMutex(cl[t]) && HoldsMutex(cl[u]) && TallyOf(cl).mutex <= 1
    ensures t == u
  {
    CountTwo(cl, HoldsMutex, t, u);
  }

  lemma ClientKeepsMutex(s: State, t: nat, y: Tally, y': Tally)
    requires Tokens(s.sem, s.barber, y) && t < |s.cl|
    requires Shifted(y, y', s.cl[t], s.cl[t].(phase := NextPhase(s, t)))
    ensures ClientSem(s, t).mutex + y'.mutex == s.sem.mutex + y.mutex
  {
  }

  lemma ClientKeepsTokens(s: State, t: nat, y: Tally, y': Tally)
    requires Tokens(s.sem, s.barber, y) && t < |s.cl|
    requires Shifted(y, y', s.cl[t], s.cl[t].(phase := NextPhase(s, t)))
    ensures Tokens(ClientSem(s, t), s.barber, y')
  {
    ClientKeepsMutex(s, t, y, y');
  }

  lemma ClientKeepsServed(s: State, t: nat, y: Tally, y': Tally)
    requires Chairs(s, y) && t < |s.cl|
    requires Shifted(y, y', s.cl[t], s.cl[t].(phase := NextPhase(s, t)))
    requires s.cl[t].phase == TestTurn && NextPhase(s, t) == LockLeave ==> s.queue != []
    ensures var s' := ClientStep(s, t);
            |s'.admitted| == s'.rounds + y'.admitting + s'.sem.asignado + B(Serving(s'.barber))
  {
  }

  lemma ClientKeepsChairs(s: State, t: nat, y: Tally, y': Tally)
    requires Tokens(s.sem, s.barber, y) && Nested(y) && Chairs(s, y) && Room(s) && t < |s.cl|
    requires Shifted(y, y', s.cl[t], s.cl[t].(phase := NextPhase(s, t)))
    requires s.cl[t].phase == TestTurn && NextPhase(s, t) == LockLeave ==> s.queue != []
    ensures Chairs(ClientStep(s, t), y')
  {
    ClientKeepsServed(s, t, y, y');
  }

  lemma ClientKeepsRoom(s: State, t: nat)
    requires Inv(s) && t < |s.cl|
    ensures Room(ClientStep(s, t))
  {
    var s' := ClientStep(s, t);
    forall u | 0 <= u < |s'.cl| && s'.cl[u].phase == Enter ensures s'.clientes < s'.sillas {
      if u != t && s.cl[t].phase == Enter {
        OneUnderMutex(s.cl, t, u);
      }
    }
  }

  /** A client that sits takes a chair nobody in the window uses. */
  lemma SitKeepsWindow(turno: seq<nat>, seated: seq<nat>, lo: nat, num: nat)
    requires |turno| > 0 && lo <= |seated| < lo + |turno| && Window(turno, seated, lo)
    ensures Window(turno[Chair(|seated|, |turno|) := num], seated + [num], lo)
  {
    var n := |seated|;
    forall k | lo <= k < n ensures Chair(k, |turno|) != Chair(n, |turno|) {
      ChairsApart(k, n - k, |turno|);
    }
  }

  lemma SitKeepsRing(s: State, t: nat, y: Tally, y': Tally)
    requires t < |s.cl| && s.cl[t].phase == Sit && Tokens(s.sem, s.barber, y) && Nested(y) && y.sitting > 0
    requires Chairs(s, y) && |s.seated| == |s.admitted| + |s.queue| && Ring(s, y)
    requires Shifted(y, y', s.cl[t], s.cl[t].(phase := MovePos))
    ensures Ring(ClientStep(s, t), y')
  {
    SitKeepsWindow(s.turno, s.seated, |s.admitted| - y.still, s.cl[t].num);
    var s' := ClientStep(s, t);
    assert s'.seated == s.seated + [s.cl[t].num] && s'.admitted == s.admitted;
  }

  lemma RingAdvances(s: State, y: Tally, y': Tally)
    requires Ring(s, y) && y.moving == 1 && y'.moving == 0 && y'.still == y.still
    ensures Ring(s.(pos := if s.pos + 1 == s.sillas then 0 else s.pos + 1), y')
  {
  }

  lemma MovePosKeepsRing(s: State, t: nat, y: Tally, y': Tally)
    requires t < |s.cl| && s.cl[t].phase == MovePos && Tokens(s.sem, s.barber, y) && Nested(y) && y.moving > 0
    requires Ring(s, y)
    requires Shifted(y, y', s.cl[t], s.cl[t].(phase := Unlock))
    ensures Ring(ClientStep(s, t), y')
  {
    Remainder(s.pos + 1, s.sillas);
    RingAdvances(s, y, y');
    var s' := ClientStep(s, t);
    assert s'.pos == if s.pos + 1 == s.sillas then 0 else s.pos + 1;
    assert s'.turno == s.turno && s'.seated == s.seated && s'.admitted == s.admitted && s'.sig == s.sig;
  }

  lemma LeavingKeepsRing(s: State, t: nat, y: Tally, y': Tally)
    requires t < |s.cl| && s.cl[t].phase != Sit && s.cl[t].phase != MovePos
    requires Nested(y) && |s.seated| == |s.admitted| + |s.queue| && Ring(s, y)
    requires Shifted(y, y', s.cl[t], s.cl[t].(phase := NextPhase(s, t)))
    requires s.cl[t].phase == TestTurn && NextPhase(s, t) == LockLeave ==> s.queue != []
    ensures Ring(ClientStep(s, t), y')
  {
    var s' := ClientStep(s, t);
    assert s'.turno == s.turno && s'.seated == s.seated && s'.sig == s.sig && s'.pos == s.pos;
    assert s'.rounds == s.rounds && s'.barber == s.barber && y'.moving == y.moving;
    assert |s'.admitted| - y'.still >= |s.admitted| - y.still;
  }

  /** Whoever tests `turno[sig]` reads a chair of the ring, which names the client that has been
      seated longest; so the test succeeds for that client only. */
  lemma TurnNamesHead(s: State, t: nat)
    requires Inv(s) && t < |s.cl| && s.cl[t].phase == TestTurn
    ensures s.queue != [] && s.queue[0] < |s.cl| && s.sig < |s.turno|
    ensures s.turno[s.sig] == s.cl[s.queue[0]].num
    ensures NextPhase(s, t) == LockLeave <==> t == s.queue[0]
  {
    InPlace(s.cl, t);
    TallyNested(s.cl);
    var y := TallyOf(s.cl);
    assert y.token > 0 && s.barber.WaitAssigned? && y.admitting == 0;
    assert t in s.queue;
    var h := s.queue[0];
    assert s.seated[|s.admitted| + 0] == s.cl[h].num;
    assert s.turno[Chair(|s.admitted|, |s.turno|)] == s.seated[|s.admitted|];
    if t != h {
      var a, b := if t < h then t else h, if t < h then h else t;
      assert Live(s.cl[a]) && Live(s.cl[b]);
    }
  }

  lemma SitKeepsLine(cl: seq<Client>, seated: seq<nat>, admitted: seq<nat>, queue: seq<nat>, t: nat, c: Client)
    requires Line(cl, seated, admitted, queue) && t < |cl| && !Queued(cl[t]) && Queued(c)
    ensures Line(cl[t := c], seated + [c.num], admitted, queue + [t])
  {
    var q := queue + [t];
    assert (seated + [c.num])[..|admitted|] == seated[..|admitted|];
    forall u | 0 <= u < |cl| && Queued(cl[t := c][u]) ensures u in q {
      assert u != t ==> u in queue;
      assert q[|queue|] == t;
    }
  }

  lemma AdmitKeepsLine(cl: seq<Client>, seated: seq<nat>, admitted: seq<nat>, queue: seq<nat>, c: Client)
    requires Line(cl, seated, admitted, queue) && queue != [] && !Queued(c) && c.num == cl[queue[0]].num
    ensures Line(cl[queue[0] := c], seated, admitted + [c.num], queue[1..])
  {
    var t, q := queue[0], queue[1..];
    assert seated[|admitted| + 0] == c.num;
    assert admitted + [c.num] == seated[..|admitted| + 1];
    forall u | 0 <= u < |cl| && Queued(cl[t := c][u]) ensures u in q {
      assert u in queue;
    }
    forall k | 0 <= k < |q| ensures seated[|admitted| + 1 + k] == cl[t := c][q[k]].num {
      assert seated[|admitted| + (k + 1)] == cl[queue[k + 1]].num;
    }
  }

  lemma StayKeepsLine(cl: seq<Client>, seated: seq<nat>, admitted: seq<nat>, queue: seq<nat>, t: nat, c: Client)
    requires Line(cl, seated, admitted, queue) && t < |cl| && Queued(c) == Queued(cl[t])
    requires Queued(c) ==> c.num == cl[t].num
    ensures Line(cl[t := c], seated, admitted, queue)
  {
  }

  /** What a step of client t does to the history. */
  lemma ClientHistory(s: State, t: nat)
    requires t < |s.cl|
    ensures var s', me := ClientStep(s, t), s.cl[t];
      && s'.cl == s.cl[t := me.(phase := NextPhase(s, t))]
      && (if me.phase == Sit then
            s'.seated == s.seated + [me.num] && s'.admitted == s.admitted && s'.queue == s.queue + [t]
          else if me.phase == TestTurn && NextPhase(s, t) == LockLeave && s.queue != [] then
            s'.seated == s.seated && s'.admitted == s.admitted + [me.num] && s'.queue == s.queue[1..]
          else
            s'.seated == s.seated && s'.admitted == s.admitted && s'.queue == s.queue)
  {
  }

  lemma OnlyTwoChangePlace(s: State, t: nat)
    requires t < |s.cl| && s.cl[t].phase != Sit && !(s.cl[t].phase == TestTurn && NextPhase(s, t) == LockLeave)
    ensures Queued(s.cl[t].(phase := NextPhase(s, t))) == Queued(s.cl[t])
  {
  }

  lemma ClientLine(s: State, t: nat)
    requires Inv(s) && t < |s.cl|
    ensures var s' := ClientStep(s, t); Line(s'.cl, s'.seated, s'.admitted, s'.queue)
  {
    var c := s.cl[t].(phase := NextPhase(s, t));
    ClientHistory(s, t);
    if s.cl[t].phase == TestTurn {
      TurnNamesHead(s, t);
    }
    if s.cl[t].phase == Sit {
      SitKeepsLine(s.cl, s.seated, s.admitted, s.queue, t, c);
    } else if s.cl[t].phase == TestTurn && NextPhase(s, t) == LockLeave {
      AdmitKeepsLine(s.cl, s.seated, s.admitted, s.queue, c);
    } else {
      OnlyTwoChangePlace(s, t);
      StayKeepsLine(s.cl, s.seated, s.admitted, s.queue, t, c);
    }
  }

  lemma ClientDistinct(s: State, t: nat)
    requires t < |s.cl| && Distinct(s.cl)
    ensures Distinct(ClientStep(s, t).cl)
  {
    ClientHistory(s, t);
  }

  lemma ClientRing(s: State, t: nat, y': Tally)
    requires Inv(s) && t < |s.cl| && y' == TallyOf(s.cl[t := s.cl[t].(phase := NextPhase(s, t))])
    ensures Ring(ClientStep(s, t), y')
  {
    var y := TallyOf(s.cl);
    Moves(s.cl, t, s.cl[t].(phase := NextPhase(s, t)));
    TallyNested(s.cl);
    if s.cl[t].phase == Sit {
      CountTwo(s.cl, Sitting, t, t);
      SitKeepsRing(s, t, y, y');
    } else if s.cl[t].phase == MovePos {
      CountTwo(s.cl, MovingPos, t, t);
      MovePosKeepsRing(s, t, y, y');
    } else {
      if s.cl[t].phase == TestTurn {
        TurnNamesHead(s, t);
      }
      LeavingKeepsRing(s, t, y, y');
    }
  }

  lemma ClientKeepsInv(s: State, t: nat)
    requires Inv(s) && t < |s.cl|
    ensures Inv(ClientStep(s, t)) && ClientStep(s, t).sillas == s.sillas
  {
    var y := TallyOf(s.cl);
    var c := s.cl[t].(phase := NextPhase(s, t));
    var y' := TallyOf(s.cl[t := c]);
    Moves(s.cl, t, c);
    TallyNested(s.cl);
    ClientKeepsTokens(s, t, y, y');
    ClientKeepsRoom(s, t);
    ClientLine(s, t);
    ClientDistinct(s, t);
    ClientRing(s, t, y');
    if s.cl[t].phase == TestTurn {
      TurnNamesHead(s, t);
    }
    ClientKeepsChairs(s, t, y, y');
    assert ClientStep(s, t).cl == s.cl[t := c];
    assert ClientStep(s, t).sem == ClientSem(s, t);
    assert ClientStep(s, t).barber == s.barber;
  }

  lemma ArriveKeepsTally(cl: seq<Client>, t: nat, id: nat)
    requires t < |cl| && !Live(cl[t])
    ensures TallyOf(cl[t := Client(Lock, id)]) == TallyOf(cl)
  {
    Moves(cl, t, Client(Lock, id));
  }

  lemma ArriveKeepsInv(s: State, t: nat, id: nat)
    requires Inv(s)
    ensures Inv(Step(s, Arrive(t, id))) && Step(s, Arrive(t, id)).sillas == s.sillas
  {
    var s' := Step(s, Arrive(t, id));
    if s' != s {
      ArriveKeepsTally(s.cl, t, id);
      StayKeepsLine(s.cl, s.seated, s.admitted, s.queue, t, Client(Lock, id));
      assert Room(s') by {
        assert forall u :: 0 <= u < |s.cl| && s'.cl[u].phase == Enter ==> s.cl[u].phase == Enter;
      }
    }
  }

  lemma StepKeepsInv(s: State, a: Action)
    requires Inv(s)
    ensures Inv(Step(s, a)) && Step(s, a).sillas == s.sillas
  {
    match a
    case Work => BarberKeepsInv(s); BarberKeepsRest(s);
    case Act(t) => if t < |s.cl| { ClientKeepsInv(s, t); }
    case Arrive(t, id) => ArriveKeepsInv(s, t, id);
  }

  lemma NobodyIn(cl: seq<Client>)
    requires forall t :: 0 <= t < |cl| ==> cl[t].phase == Outside
    ensures TallyOf(cl) == Tally(0, 0, 0, 0, 0, 0, 0, 0, 0)
  {
    CountBounds(cl, HoldsMutex);
    CountBounds(cl, HasToken);
    CountBounds(cl, Admitting);
    CountBounds(cl, Calling);
    CountBounds(cl, AwaitsCut);
    CountBounds(cl, InChair);
    CountBounds(cl, Sitting);
    CountBounds(cl, MovingPos);
    CountBounds(cl, StillSeated);
  }

  lemma InitInv(sillas: nat, threads: nat)
    requires sillas > 0
    ensures Inv(Init(sillas, threads))
  {
    var s := Init(sillas, threads);
    NobodyIn(s.cl);
    assert Line(s.cl, s.seated, s.admitted, s.queue);
    assert Ring(s, TallyOf(s.cl));
  }

  lemma ReachableInv(sillas: nat, threads: nat, schedule: seq<Action>)
    requires sillas > 0
    ensures Inv(Exec(Step, Init(sillas, threads), schedule))
    ensures Exec(Step, Init(sillas, threads), schedule).sillas == sillas
  {
    InitInv(sillas, threads);
    forall s: State, a: Action | Inv(s) && s.sillas == sillas ensures Inv(Step(s, a)) && Step(s, a).sillas == sillas {
      StepKeepsInv(s, a);
    }
    InvariantHolds(Step, (s: State) => Inv(s) && s.sillas == sillas, Init(sillas, threads), schedule);
  }

  // ----- service in order -----

  lemma AdmittedInOrder(s: State)
    requires Line(s.cl, s.seated, s.admitted, s.queue)
    ensures s.admitted <= s.seated
  {
  }

  /** The k-th client to be admitted is the k-th to have sat down, whatever the schedule. */
  lemma FifoService(sillas: nat, threads: nat, schedule: seq<Action>, k: nat)
    requires sillas > 0
    requires k < |Exec(Step, Init(sillas, threads), schedule).admitted|
    ensures var s := Exec(Step, Init(sillas, threads), schedule);
            k < |s.seated| && s.admitted[k] == s.seated[k]
  {
    ReachableInv(sillas, threads, schedule);
  }

  /** The barber has called and nobody has been admitted in this round yet. */
  predicate TokenOut(s: State) {
    s.barber.WaitAssigned? && Count(s.cl, Admitting) == 0 && s.sem.asignado == 0
  }

  /** While the token is out it is in the semaphore or in one client's hands, `turno[sig]` is a chair of
      the ring that names the client seated longest, and a client about to sit writes another chair. */
  lemma TokenNamesNext(sillas: nat, threads: nat, schedule: seq<Action>)
    requires sillas > 0 && TokenOut(Exec(Step, Init(sillas, threads), schedule))
    ensures var s := Exec(Step, Init(sillas, threads), schedule);
      && s.sem.barbero + Count(s.cl, HasToken) == 1
      && s.sig < |s.turno| && |s.admitted| < |s.seated| && s.turno[s.sig] == s.seated[|s.admitted|]
      && forall t :: 0 <= t < |s.cl| && s.cl[t].phase == Sit ==> s.pos < |s.turno| && s.pos != s.sig
  {
    ReachableInv(sillas, threads, schedule);
    var s := Exec(Step, Init(sillas, threads), schedule);
    TokenRing(s);
    forall t | 0 <= t < |s.cl| && s.cl[t].phase == Sit ensures s.pos < |s.turno| && s.pos != s.sig {
      CountTwo(s.cl, Sitting, t, t);
      TallyNested(s.cl);
      NewcomerElsewhere(s, TallyOf(s.cl));
    }
  }

  lemma TokenRing(s: State)
    requires Inv(s) && TokenOut(s)
    ensures s.queue != [] && s.rounds == |s.admitted| && s.sem.barbero + Count(s.cl, HasToken) == 1
    ensures s.sig < |s.turno| && |s.admitted| < |s.seated| && s.turno[s.sig] == s.seated[|s.admitted|]
  {
    TallyNested(s.cl);
    var u := CountWitness(s.cl, Calling);
    InPlace(s.cl, u);
    assert u in s.queue;
    assert s.turno[Chair(|s.admitted|, |s.turno|)] == s.seated[|s.admitted|];
  }

  lemma NewcomerElsewhere(s: State, y: Tally)
    requires Tokens(s.sem, s.barber, y) && Nested(y) && Chairs(s, y) && Ring(s, y) && y.sitting > 0
    requires s.queue != [] && s.rounds == |s.admitted| && |s.seated| == |s.admitted| + |s.queue| && s.barber.WaitAssigned?
    ensures s.pos < |s.turno| && s.pos != s.sig
  {
    ChairsApart(|s.admitted|, |s.queue|, s.sillas);
  }

  /** Chairs, tokens and the barber's chair are never over-committed, and the unlocked read of
      `turno[sig]` never leaves the ring although `sig` passes through SILLAS. */
  lemma NeverOvercommitted(sillas: nat, threads: nat, schedule: seq<Action>)
    requires sillas > 0
    ensures var s := Exec(Step, Init(sillas, threads), schedule);
      && s.clientes <= sillas
      && s.clientes == |s.seated| - |s.admitted| + Count(s.cl, StillSeated) + Count(s.cl, Sitting)
      && s.sem.barbero + Count(s.cl, HasToken) <= 1
      && (forall t, u :: 0 <= t < u < |s.cl| ==> !(s.cl[t].phase == BeingCut && s.cl[u].phase == BeingCut))
      && (forall t :: 0 <= t < |s.cl| && s.cl[t].phase == BeingCut ==> s.barber.Cutting? || s.barber.WaitPay?)
      && (forall t :: 0 <= t < |s.cl| && s.cl[t].phase == TestTurn ==> s.sig < |s.turno|)
  {
    ReachableInv(sillas, threads, schedule);
    var s := Exec(Step, Init(sillas, threads), schedule);
    var y := TallyOf(s.cl);
    forall t, u | 0 <= t < u < |s.cl| ensures !(s.cl[t].phase == BeingCut && s.cl[u].phase == BeingCut) {
      if s.cl[t].phase == BeingCut && s.cl[u].phase == BeingCut {
        CountTwo(s.cl, InChair, t, u);
      }
    }
    forall t | 0 <= t < |s.cl| && s.cl[t].phase == BeingCut ensures s.barber.Cutting? || s.barber.WaitPay? {
      InPlace(s.cl, t);
    }
    forall t | 0 <= t < |s.cl| && s.cl[t].phase == TestTurn ensures s.sig < |s.turno| {
      TurnNamesHead(s, t);
    }
  }

  // ----- every visit can be completed -----

  /** How far a client is from the end of its visit.  Being admitted is worth more than what the barber gains
      by it; only a client that takes the token goes up. */
  function ClientRank(p: ClientPhase): nat {
    match p
    case Outside => 0
    case FullUnlock => 1
    case Paying => 1
    case Pay => 2
    case BeingCut => 3
    case WaitCut => 4
    case Assigned => 5
    case UnlockLeave => 6
    case LeaveChair => 7
    case LockLeave => 8
    case WaitAgain => 29
    case WaitBarber => 29
    case PassOn => 30
    case TestTurn => 31
    case Notify => 32
    case Unlock => 33
    case MovePos => 34
    case Sit => 35
    case Enter => 36
    case TestFull => 37
    case Lock => 38
  }

  /** How far the barber is from waiting for the next assignment. */
  function BarberRank(b: BarberPhase, assigning: bool): nat {
    match b
    case WaitAssigned => if assigning then 11 else 0
    case StartCut => 10
    case Cutting => 9
    case WaitPay => 8
    case Paid => 7
    case LockTurn => 6
    case Bump => 5
    case Wrap => 4
    case UnlockTurn => 3
    case WaitClient => 2
    case CallClient => 1
  }

  function ClientRanks(cl: seq<Client>): seq<nat> {
    seq(|cl|, t requires 0 <= t < |cl| => ClientRank(cl[t].phase))
  }

  function Assigning(s: State): nat { Count(s.cl, Admitting) + s.sem.asignado }

  function Left(s: State): nat { Sum(ClientRanks(s.cl)) + BarberRank(s.barber, Assigning(s) > 0) }

  /** s' comes after s with less left to do. */
  ghost predicate Nearer(s: State, s': State) {
    Reaches(Step, s, s') && Inv(s') && s.seated <= s'.seated && |s'.cl| == |s.cl| && Left(s') < Left(s)
  }

  lemma StepReached(s: State, a: Action)
    requires Inv(s)
    ensures Reaches(Step, s, Step(s, a)) && Inv(Step(s, a))
  {
    ReachesSelf(Step, s);
    ReachesStep(Step, s, s, a);
    StepKeepsInv(s, a);
  }

  /** The barber's own share of what is left drops with each step it takes. */
  lemma BarberAdvances(s: State, y: Tally)
    requires Tokens(s.sem, s.barber, y) && s.sillas > 0 && BarberStep(s) != s
    ensures BarberRank(BarberStep(s).barber, y.admitting + BarberStep(s).sem.asignado > 0)
         < BarberRank(s.barber, y.admitting + s.sem.asignado > 0)
  {
  }

  lemma BarberNearer(s: State) returns (s': State)
    requires Inv(s)
    requires s.barber.WaitClient? ==> s.sem.clientes > 0
    requires s.barber.WaitAssigned? ==> s.sem.asignado > 0
    requires s.barber.WaitPay? ==> s.sem.pagando > 0
    requires s.barber.LockTurn? ==> s.sem.mutex > 0
    ensures Nearer(s, s')
  {
    StepReached(s, Work);
    s' := Step(s, Work);
    BarberKeepsRest(s);
    assert s'.barber != s.barber;
    BarberAdvances(s, TallyOf(s.cl));
  }

  predicate Admits(s: State, t: nat)
    requires t < |s.cl|
  {
    s.cl[t].phase == TestTurn && NextPhase(s, t) == LockLeave
  }

  lemma RankStep(s: State, t: nat)
    requires t < |s.cl|
    ensures Sum(ClientRanks(ClientStep(s, t).cl)) ==
            Sum(ClientRanks(s.cl)) - ClientRank(s.cl[t].phase) + ClientRank(NextPhase(s, t))
  {
    ClientHistory(s, t);
    var cl' := ClientStep(s, t).cl;
    assert ClientRanks(cl') == ClientRanks(s.cl)[t := ClientRank(NextPhase(s, t))];
    SumUpdate(ClientRanks(s.cl), t, ClientRank(NextPhase(s, t)));
  }

  /** A client's step leaves the barber as it is, and only an admission starts an assignment. */
  lemma AssigningStep(s: State, t: nat)
    requires t < |s.cl|
    ensures ClientStep(s, t).barber == s.barber
    ensures Assigning(ClientStep(s, t)) == Assigning(s) + B(Admits(s, t))
  {
    ClientHistory(s, t);
    CountUpdate(s.cl, t, s.cl[t].(phase := NextPhase(s, t)), Admitting);
    if Admitting(s.cl[t]) { CountTwo(s.cl, Admitting, t, t); }
    SameAssigning(s, t);
  }

  lemma SameAssigning(s: State, t: nat)
    requires t < |s.cl|
    ensures ClientSem(s, t).asignado - s.sem.asignado ==
            B(Admitting(s.cl[t])) - B(Admitting(s.cl[t].(phase := NextPhase(s, t)))) + B(Admits(s, t))
  {
  }

  lemma LeftStep(s: State, t: nat)
    requires t < |s.cl|
    ensures Left(ClientStep(s, t)) <=
            Left(s) - ClientRank(s.cl[t].phase) + ClientRank(NextPhase(s, t)) + if Admits(s, t) then 11 else 0
  {
    RankStep(s, t);
    AssigningStep(s, t);
  }

  lemma ClientNearer(s: State, t: nat) returns (s': State)
    requires Inv(s) && t < |s.cl|
    requires ClientRank(NextPhase(s, t)) < ClientRank(s.cl[t].phase)
    ensures Nearer(s, s')
  {
    StepReached(s, Act(t));
    s' := Step(s, Act(t));
    LeftDrops(s, t);
  }

  lemma LeftDrops(s: State, t: nat)
    requires t < |s.cl| && ClientRank(NextPhase(s, t)) < ClientRank(s.cl[t].phase)
    ensures var s' := ClientStep(s, t); Left(s') < Left(s) && s.seated <= s'.seated && |s'.cl| == |s.cl|
  {
    ClientHistory(s, t);
    LeftStep(s, t);
  }

  /** Whoever holds the mutex can go on. */
  lemma MutexNearer(s: State) returns (s': State)
    requires Inv(s) && s.sem.mutex == 0
    ensures Nearer(s, s')
  {
    if s.barber.Bump? || s.barber.Wrap? || s.barber.UnlockTurn? {
      s' := BarberNearer(s);
    } else {
      var t := CountWitness(s.cl, HoldsMutex);
      s' := ClientNearer(s, t);
    }
  }

  /** The client seated longest goes on by itself up to waiting for the barber, and with the token it is
      admitted. */
  lemma HeadNearer(s: State) returns (s': State)
    requires Inv(s) && s.queue != [] && Count(s.cl, HasToken) == 0
    requires s.sem.barbero > 0 || Count(s.cl, Calling) == 0
    ensures Nearer(s, s')
  {
    var t := s.queue[0];
    assert t < |s.cl| && Queued(s.cl[t]);
    InPlace(s.cl, t);
    if s.cl[t].phase.MovePos? || s.cl[t].phase.Unlock? || s.cl[t].phase.Notify? {
      s' := ClientNearer(s, t);
    } else {
      s' := TokenNearer(s, t);
    }
  }

  /** It takes the token, which leaves two more to do ... */
  lemma TakeToken(s: State, t: nat)
    requires Inv(s) && t < |s.cl| && s.sem.barbero > 0 && (s.cl[t].phase.WaitBarber? || s.cl[t].phase.WaitAgain?)
    ensures var s' := ClientStep(s, t);
      && Left(s') <= Left(s) + 2 && s'.queue == s.queue && s'.seated == s.seated
      && |s'.cl| == |s.cl| && s'.cl[t].phase == TestTurn
  {
    ClientHistory(s, t);
    LeftStep(s, t);
  }

  /** ... and is admitted, which leaves twelve less. */
  lemma AdmitHead(s: State, t: nat)
    requires Inv(s) && s.queue != [] && t == s.queue[0] < |s.cl| && s.cl[t].phase == TestTurn
    ensures var s' := ClientStep(s, t); Left(s') <= Left(s) - 12 && s'.seated == s.seated && |s'.cl| == |s.cl|
  {
    TurnNamesHead(s, t);
    ClientHistory(s, t);
    LeftStep(s, t);
  }

  lemma TokenNearer(s: State, t: nat) returns (s': State)
    requires Inv(s) && s.queue != [] && t == s.queue[0] < |s.cl| && s.sem.barbero > 0
    requires s.cl[t].phase.WaitBarber? || s.cl[t].phase.WaitAgain?
    ensures Nearer(s, s')
  {
    StepReached(s, Act(t));
    TakeToken(s, t);
    var s1 := Step(s, Act(t));
    StepReached(s1, Act(t));
    AdmitHead(s1, t);
    s' := Step(s1, Act(t));
    ReachesTrans(Step, s, s1, s');
  }

  lemma AssignNearer(s: State) returns (s': State)
    requires Inv(s) && s.barber.WaitAssigned?
    ensures Nearer(s, s')
  {
    if s.sem.asignado > 0 {
      s' := BarberNearer(s);
    } else if Count(s.cl, Admitting) > 0 {
      var t := CountWitness(s.cl, Admitting);
      if s.cl[t].phase.LockLeave? && s.sem.mutex == 0 {
        s' := MutexNearer(s);
      } else {
        s' := ClientNearer(s, t);
      }
    } else if Count(s.cl, HasToken) > 0 {
      var t := CountWitness(s.cl, HasToken);
      s' := ClientNearer(s, t);
    } else {
      TokenRing(s);
      s' := HeadNearer(s);
    }
  }

  lemma PayNearer(s: State) returns (s': State)
    requires Inv(s) && s.barber.WaitPay?
    ensures Nearer(s, s')
  {
    if s.sem.pagando > 0 {
      s' := BarberNearer(s);
    } else if Count(s.cl, InChair) > 0 {
      var t := CountWitness(s.cl, InChair);
      s' := ClientNearer(s, t);
    } else {
      var t := CountWitness(s.cl, AwaitsCut);
      s' := ClientNearer(s, t);
    }
  }

  predicate Asleep(s: State) { s.barber.WaitClient? && s.sem.clientes == 0 }

  /** Nobody is left in the shop, everybody who sat down has been served, and the barber sleeps. */
  predicate Served(s: State) {
    && Asleep(s) && s.clientes == 0
    && (forall t :: 0 <= t < |s.cl| ==> s.cl[t].phase == Outside)
    && s.admitted == s.seated && s.rounds == |s.seated|
  }

  /** While the barber sleeps no client is between waking it and having paid. */
  lemma AsleepPlaces(s: State, t: nat)
    requires Inv(s) && Asleep(s) && t < |s.cl|
    ensures !Calling(s.cl[t]) && !AwaitsCut(s.cl[t]) && !InChair(s.cl[t]) && Count(s.cl, HasToken) == 0
  {
    InPlace(s.cl, t);
    TallyNested(s.cl);
  }

  lemma AsleepNearer(s: State, t: nat) returns (s': State)
    requires Inv(s) && Asleep(s) && t < |s.cl| && s.cl[t].phase != Outside && !Queued(s.cl[t])
    ensures Nearer(s, s')
  {
    AsleepPlaces(s, t);
    if s.cl[t].phase.Lock? && s.sem.mutex == 0 {
      s' := MutexNearer(s);
    } else {
      s' := ClientNearer(s, t);
    }
  }

  lemma EmptyLine(cl: seq<Client>, seated: seq<nat>, admitted: seq<nat>, queue: seq<nat>)
    requires Line(cl, seated, admitted, queue) && forall t :: 0 <= t < |cl| ==> !Queued(cl[t])
    ensures queue == [] && admitted == seated
  {
    if queue != [] {
      SomebodyQueued(cl, seated, admitted, queue);
      assert false;
    }
  }

  lemma SomebodyQueued(cl: seq<Client>, seated: seq<nat>, admitted: seq<nat>, queue: seq<nat>)
    requires Line(cl, seated, admitted, queue) && queue != []
    ensures exists t :: 0 <= t < |cl| && Queued(cl[t])
  {
    assert Queued(cl[queue[0]]);
  }

  lemma EmptyIsServed(s: State)
    requires Inv(s) && Asleep(s) && forall t :: 0 <= t < |s.cl| ==> s.cl[t].phase == Outside
    ensures Served(s)
  {
    NobodyIn(s.cl);
    EmptyLine(s.cl, s.seated, s.admitted, s.queue);
    EmptyCounts(s, TallyOf(s.cl));
  }

  lemma EmptyCounts(s: State, y: Tally)
    requires y == Tally(0, 0, 0, 0, 0, 0, 0, 0, 0) && Tokens(s.sem, s.barber, y) && Chairs(s, y) && s.queue == []
    requires s.barber.WaitClient?
    ensures s.clientes == 0 && s.rounds == |s.admitted|
  {
  }

  lemma SleepNearer(s: State) returns (s': State)
    requires Inv(s) && Asleep(s) && !Served(s)
    ensures Nearer(s, s')
  {
    if s.queue != [] {
      TallyNested(s.cl);
      s' := HeadNearer(s);
    } else if t: nat :| t < |s.cl| && s.cl[t].phase != Outside {
      assert Queued(s.cl[t]) ==> t in s.queue;
      s' := AsleepNearer(s, t);
    } else {
      EmptyIsServed(s);
      assert false;
    }
  }

  lemma SomebodyNearer(s: State) returns (s': State)
    requires Inv(s) && !Served(s)
    ensures Nearer(s, s')
  {
    if s.barber.WaitAssigned? {
      s' := AssignNearer(s);
    } else if s.barber.WaitPay? {
      s' := PayNearer(s);
    } else if s.barber.LockTurn? && s.sem.mutex == 0 {
      s' := MutexNearer(s);
    } else if Asleep(s) {
      s' := SleepNearer(s);
    } else {
      s' := BarberNearer(s);
    }
  }

  /** No reachable state is a trap: every run can be continued, without new arrivals, until all who have sat
      down, admitted or not, have been cut and have paid, everybody has left, the barber has finished as many
      rounds as clients sat down, and it waits for the next one. */
  lemma {:induction false} EveryoneCanBeServed(s: State) returns (s': State)
    requires Inv(s)
    ensures Reaches(Step, s, s') && Inv(s') && Served(s') && s.seated <= s'.seated && |s'.cl| == |s.cl|
    decreases Left(s)
  {
    if Served(s) {
      s' := s;
      ReachesSelf(Step, s);
    } else {
      var s1 := SomebodyNearer(s);
      s' := EveryoneCanBeServed(s1);
      ReachesTrans(Step, s, s1, s');
    }
  }

  /** In particular the one seated longest is the next one admitted, and all those seated now are served in
      their order. */
  lemma SeatedCanBeServed(s: State) returns (s': State)
    requires Inv(s) && s.queue != []
    ensures Reaches(Step, s, s') && Inv(s') && s.seated <= s'.seated
    ensures |s.admitted| < |s'.admitted| && s'.admitted[|s.admitted|] == s.cl[s.queue[0]].num
    ensures s.seated <= s'.admitted && |s.seated| <= s'.rounds
  {
    assert s.seated[|s.admitted| + 0] == s.cl[s.queue[0]].num;
    s' := EveryoneCanBeServed(s);
  }

  /** Whatever has happened so far, the shop can be emptied. */
  lemma ShopCanEmpty(sillas: nat, threads: nat, schedule: seq<Action>) returns (rest: seq<Action>)
    requires sillas > 0
    ensures Served(Exec(Step, Init(sillas, threads), schedule + rest))
    ensures Exec(Step, Init(sillas, threads), schedule).seated <= Exec(Step, Init(sillas, threads), schedule + rest).admitted
  {
    var s0 := Init(sillas, threads);
    ReachableInv(sillas, threads, schedule);
    var s := EveryoneCanBeServed(Exec(Step, s0, schedule));
    rest :| Exec(Step, Exec(Step, s0, schedule), rest) == s;
    ExecConcat(Step, s0, schedule, rest);
  }

  /** The indices into the ring are good whenever they are used, and `clientes--` never goes below 0; the
      guards on these accesses change nothing. */
  lemma NeverOutOfBounds(sillas: nat, threads: nat, schedule: seq<Action>, t: nat)
    requires sillas > 0
    ensures var s := Exec(Step, Init(sillas, threads), schedule);
      && |s.turno| == sillas && s.pos < sillas
      && (s.barber.Cutting? ==> s.sig < sillas)
      && (t < |s.cl| && s.cl[t].phase.TestTurn? ==> s.sig < sillas)
      && (t < |s.cl| && s.cl[t].phase.LeaveChair? ==> s.clientes > 0)
  {
    ReachableInv(sillas, threads, schedule);
    var s := Exec(Step, Init(sillas, threads), schedule);
    if t < |s.cl| {
      InPlace(s.cl, t);
      if s.cl[t].phase.TestTurn? { TurnNamesHead(s, t); }
      if s.cl[t].phase.LeaveChair? { CountTwo(s.cl, StillSeated, t, t); }
    }
  }

  // ----- the program itself -----

  /** The globals of sembarb.c, changed in place; the history is ghost here. */
  class Shop {
    const sillas: nat
    const turno: array<nat>
    const cl: array<Client>
    var pos: nat
    var sig: nat
    var clientes: nat
    var semMutex: nat
    var semClientes: nat
    var semBarbero: nat
    var semAsignado: nat
    var semCortando: nat
    var semPagando: nat
    var barber: BarberPhase
    ghost var seated: seq<nat>
    ghost var admitted: seq<nat>
    ghost var queue: seq<nat>
    ghost var rounds: nat

    ghost predicate Valid()
      reads this
    {
      turno.Length == sillas > 0
    }

    ghost function View(): State
      reads this, turno, cl
    {
      State(sillas, pos, sig, clientes, turno[..],
            Semaphores(semMutex, semClientes, semBarbero, semAsignado, semCortando, semPagando),
            barber, cl[..], seated, admitted, queue, rounds)
    }

    constructor (sillas: nat, threads: nat)
      requires sillas > 0
      ensures Valid() && fresh(turno) && fresh(cl) && View() == Init(sillas, threads)
    {
      this.sillas := sillas;
      turno := new nat[sillas](_ => 0);
      cl := new Client[threads](_ => Client(Outside, 0));
      pos, sig, clientes := 0, 0, 0;
      semMutex, semClientes, semBarbero, semAsignado, semCortando, semPagando := 1, 0, 0, 0, 0, 0;
      barber := WaitClient;
      seated, admitted, queue, rounds := [], [], [], 0;
    }

    /** One step of barbero_func. */
    method BarberWork()
      requires Valid()
      modifies this
      ensures Valid() && View() == BarberStep(old(View()))
    {
      match barber {
        case WaitClient =>
          if semClientes > 0 { semClientes, barber := semClientes - 1, CallClient; }
        case CallClient =>
          semBarbero, barber := semBarbero + 1, WaitAssigned;
        case WaitAssigned =>
          if semAsignado > 0 { semAsignado, barber := semAsignado - 1, StartCut; }
        case StartCut =>
          semCortando, barber := semCortando + 1, Cutting;
        case Cutting =>
          barber := WaitPay;
        case WaitPay =>
          if semPagando > 0 { semPagando, barber := semPagando - 1, Paid; }
        case Paid =>
          barber := LockTurn;
        case LockTurn =>
          if semMutex > 0 { semMutex, barber := semMutex - 1, Bump; }
        case Bump =>
          sig, barber := sig + 1, Wrap;
        case Wrap =>
          sig, barber := sig % sillas, UnlockTurn;
          rounds := rounds + 1;
        case UnlockTurn =>
          semMutex, barber := semMutex + 1, WaitClient;
      }
    }

    /** Lines 79-92: the client takes a chair, or leaves because there is none. */
    method TakeChair(t: nat)
      requires Valid() && t < cl.Length
      requires match cl[t].phase
               case Lock | TestFull | FullUnlock | Enter | Sit | MovePos | Unlock | Notify => true
               case _ => false
      modifies this, turno, cl
      ensures Valid() && View() == ClientStep(old(View()), t)
    {
      var c := cl[t];
      match c.phase {
        case Lock =>
          if semMutex > 0 {
            semMutex := semMutex - 1;
            cl[t] := c.(phase := TestFull);
          }
        case TestFull =>
          cl[t] := c.(phase := if clientes == sillas then FullUnlock else Enter);
        case FullUnlock =>
          semMutex := semMutex + 1;
          cl[t] := c.(phase := Outside);
        case Enter =>
          clientes := clientes + 1;
          cl[t] := c.(phase := Sit);
        case Sit =>
          if pos < turno.Length { turno[pos] := c.num; }
          seated, queue := seated + [c.num], queue + [t];
          cl[t] := c.(phase := MovePos);
        case MovePos =>
          pos := (pos + 1) % sillas;
          cl[t] := c.(phase := Unlock);
        case Unlock =>
          semMutex := semMutex + 1;
          cl[t] := c.(phase := Notify);
        case Notify =>
          semClientes := semClientes + 1;
          cl[t] := c.(phase := WaitBarber);
      }
    }

    /** Lines 93-99: the token goes round until the client that `turno[sig]` names holds it. */
    method WaitTurn(t: nat)
      requires Valid() && t < cl.Length
      requires match cl[t].phase case WaitBarber | TestTurn | PassOn | WaitAgain => true case _ => false
      modifies this, cl
      ensures Valid() && View() == ClientStep(old(View()), t)
    {
      var c := cl[t];
      match c.phase {
        case WaitBarber =>
          if semBarbero > 0 {
            semBarbero := semBarbero - 1;
            cl[t] := c.(phase := TestTurn);
          }
        case TestTurn =>
          if sig < turno.Length && turno[sig] == c.num {
            if queue != [] {
              admitted, queue := admitted + [c.num], queue[1..];
            }
            cl[t] := c.(phase := LockLeave);
          } else {
            cl[t] := c.(phase := PassOn);
          }
        case PassOn =>
          semBarbero := semBarbero + 1;
          cl[t] := c.(phase := WaitAgain);
        case WaitAgain =>
          if semBarbero > 0 {
            semBarbero := semBarbero - 1;
            cl[t] := c.(phase := TestTurn);
          }
      }
    }

    /** Lines 101-110: the client leaves its chair, is cut and pays. */
    method GetCut(t: nat)
      requires Valid() && t < cl.Length
      requires match cl[t].phase
               case LockLeave | LeaveChair | UnlockLeave | Assigned | WaitCut | BeingCut | Pay | Paying => true
               case _ => false
      modifies this, cl
      ensures Valid() && View() == ClientStep(old(View()), t)
    {
      var c := cl[t];
      match c.phase {
        case LockLeave =>
          if semMutex > 0 {
            semMutex := semMutex - 1;
            cl[t] := c.(phase := LeaveChair);
          }
        case LeaveChair =>
          if clientes > 0 { clientes := clientes - 1; }
          cl[t] := c.(phase := UnlockLeave);
        case UnlockLeave =>
          semMutex := semMutex + 1;
          cl[t] := c.(phase := Assigned);
        case Assigned =>
          semAsignado := semAsignado + 1;
          cl[t] := c.(phase := WaitCut);
        case WaitCut =>
          if semCortando > 0 {
            semCortando := semCortando - 1;
            cl[t] := c.(phase := BeingCut);
          }
        case BeingCut =>
          cl[t] := c.(phase := Pay);
        case Pay =>
          semPagando := semPagando + 1;
          cl[t] := c.(phase := Paying);
        case Paying =>
          cl[t] := c.(phase := Outside);
      }
    }

    /** maneja_proceso: thread t comes back with an id no live client has. */
    method Enters(t: nat, id: nat)
      requires Valid() && t < cl.Length
      modifies cl
      ensures Valid() && View() == Step(old(View()), Arrive(t, id))
    {
      var free := cl[t].phase == Outside;
      var u := 0;
      while u < cl.Length && free
        invariant 0 <= u <= cl.Length
        invariant free ==> cl[t].phase == Outside && forall v :: 0 <= v < u && Live(cl[v]) ==> cl[v].num != id
        invariant !free ==> cl[t].phase != Outside || exists v :: 0 <= v < cl.Length && Live(cl[v]) && cl[v].num == id
      {
        free := cl[u].phase == Outside || cl[u].num != id;
        u := u + 1;
      }
      if free {
        cl[t] := Client(Lock, id);
      }
    }

    method Act(a: Action)
      requires Valid()
      modifies this, turno, cl
      ensures Valid() && View() == Step(old(View()), a)
    {
      match a {
        case Work => BarberWork();
        case Act(t) =>
          if t < cl.Length {
            match cl[t].phase {
              case Outside => assert cl[..] == cl[..][t := cl[t]];
              case Lock | TestFull | FullUnlock | Enter | Sit | MovePos | Unlock | Notify => TakeChair(t);
              case WaitBarber | TestTurn | PassOn | WaitAgain => WaitTurn(t);
              case _ => GetCut(t);
            }
          }
        case Arrive(t, id) =>
          if t < cl.Length { Enters(t, id); }
      }
    }

    /** Any schedule: clients are admitted in the order in which they sat down. */
    method Run(schedule: seq<Action>)
      requires Valid() && View() == Init(sillas, cl.Length)
      modifies this, turno, cl
      ensures Valid() && View() == Exec(Step, old(View()), schedule) && Inv(View())
      ensures admitted <= seated
    {
      ghost var s0 := View();
      for k := 0 to |schedule|
        invariant Valid() && View() == Exec(Step, s0, schedule[..k])
      {
        ExecOne(Step, s0, schedule[..k], schedule[k]);
        assert schedule[..k + 1] == schedule[..k] + [schedule[k]];
        Act(schedule[k]);
      }
      assert schedule[..|schedule|] == schedule;
      ReachableInv(sillas, cl.Length, schedule);
      AdmittedInOrder(View());
    }
  }
}
