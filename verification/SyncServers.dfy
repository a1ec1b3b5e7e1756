/** `lockHandler` and `semHandler` of `sync.erl` with their clients `f` and `sem` and the waiter that
    destroys the server when all have finished.

    A message is in transit, FIFO per client, and then in the server's mailbox; `receive` takes the
    oldest message there that one of its patterns matches.  Ask is {From, lock} and {From, semV}, Give
    is {From, unlock} and {From, semP}. */
module SyncServers {
  import opened Runs
  import opened Counting
  import opened Mailbox
  import Spec = CountingSemaphore

  datatype Msg = Ask(from: nat) | Give(from: nat) | Dest

  datatype Server =
    | LockFree
    | LockHeld(owner: nat)      // the inner receive of lockHandler
    | Sem(value: nat)
    | SemZero(next: nat)        // the inner receive of semHandler(0)
    | Gone

  datatype Phase =
    | Request       // L ! {self(), lock}
    | AwaitOk       // receive {L, ok}
    | Critical
    | Release       // L ! {self(), unlock}
    | Report        // W ! finished
    | Finished

  /** oks[c]: {L, ok} has been sent to c and not taken; reports: `finished` messages the waiter has not
      taken; left: what the waiter still waits for. */
  datatype State = State(
    cl: seq<Phase>, transit: seq<seq<Msg>>, oks: seq<bool>, box: seq<Msg>, server: Server,
    reports: nat, left: nat, dismissed: bool, destTransit: bool)

  datatype Action = Client(c: nat) | Deliver(c: nat) | DeliverDest | Receive | TakeReport | Dismiss

  function Init(n: nat, server: Server): State {
    State(seq(n, _ => Request), seq(n, _ => []), seq(n, _ => false), [], server, 0, n, false, false)
  }

  /** createLock() or createSem(k) */
  predicate Fresh(server: Server) { server.LockFree? || server.Sem? }

  function Capacity(server: Server): nat
    requires Fresh(server)
  {
    if server.Sem? then server.value else 1
  }

  predicate Shaped(s: State) { |s.transit| == |s.oks| == |s.cl| }

  predicate Wanted(server: Server, m: Msg) {
    match server
    case LockFree => m.Ask? || m.Dest?
    case LockHeld(c) => m == Give(c)
    case Sem(_) => true
    case SemZero(_) => m.Give?
    case Gone => false
  }

  function Match(server: Server, box: seq<Msg>): (k: nat)
    ensures k <= |box| && (k < |box| ==> Wanted(server, box[k]))
    ensures forall i :: 0 <= i < k ==> !Wanted(server, box[i])
  {
    if box == [] then 0 else if Wanted(server, box[0]) then 0 else 1 + Match(server, box[1..])
  }

  function Grant(oks: seq<bool>, c: nat): seq<bool> { if c < |oks| then oks[c := true] else oks }

  function ServerStep(s: State): State {
    var k := Match(s.server, s.box);
    if k >= |s.box| then s
    else
      var taken := s.(box := Without(s.box, k));
      match (s.server, s.box[k])
      case (LockFree, Ask(c)) => taken.(server := LockHeld(c), oks := Grant(s.oks, c))
      case (LockHeld(_), Give(_)) => taken.(server := LockFree)
      case (Sem(v), Ask(c)) =>
        if v == 0 then taken.(server := SemZero(c)) else taken.(server := Sem(v - 1), oks := Grant(s.oks, c))
      case (Sem(v), Give(_)) => taken.(server := Sem(v + 1))
      case (SemZero(c), Give(_)) => taken.(server := Sem(0), oks := Grant(s.oks, c))
      case (_, Dest) => taken.(server := Gone)
      case _ => s
  }

  function ClientStep(s: State, c: nat): State
    requires Shaped(s) && c < |s.cl|
  {
    match s.cl[c]
    case Request => s.(cl := s.cl[c := AwaitOk], transit := s.transit[c := s.transit[c] + [Ask(c)]])
    case AwaitOk => if s.oks[c] then s.(cl := s.cl[c := Critical], oks := s.oks[c := false]) else s
    case Critical => s.(cl := s.cl[c := Release])
    case Release => s.(cl := s.cl[c := Report], transit := s.transit[c := s.transit[c] + [Give(c)]])
    case Report => s.(cl := s.cl[c := Finished], reports := s.reports + 1)
    case Finished => s
  }

  function Step(s: State, a: Action): State {
    if !Shaped(s) then s
    else
      match a
      case Client(c) => if c < |s.cl| then ClientStep(s, c) else s
      case Deliver(c) =>
        if c < |s.cl| && s.transit[c] != []
        then s.(box := s.box + [s.transit[c][0]], transit := s.transit[c := s.transit[c][1..]])
        else s
      case DeliverDest => if s.destTransit then s.(box := s.box + [Dest], destTransit := false) else s
      case Receive => ServerStep(s)
      case TakeReport =>
        if s.reports > 0 && s.left > 0 then s.(reports := s.reports - 1, left := s.left - 1) else s
      case Dismiss => if s.left == 0 && !s.dismissed then s.(dismissed := true, destTransit := true) else s
  }

  // ----- messages of one client -----

  predicate IsFrom(m: Msg, c: nat) { m == Ask(c) || m == Give(c) }

  /** How many messages of client c are in the mailbox. */
  function FromIn(box: seq<Msg>, c: nat): nat {
    if box == [] then 0 else B(IsFrom(box[0], c)) + FromIn(box[1..], c)
  }

  function DestIn(box: seq<Msg>): nat {
    if box == [] then 0 else B(box[0].Dest?) + DestIn(box[1..])
  }

  lemma {:induction false} BoxAppend(box: seq<Msg>, m: Msg, c: nat)
    ensures FromIn(box + [m], c) == FromIn(box, c) + B(IsFrom(m, c))
    ensures DestIn(box + [m]) == DestIn(box) + B(m.Dest?)
    decreases |box|
  {
    if box == [] {
      assert box + [m] == [m];
    } else {
      assert (box + [m])[1..] == box[1..] + [m];
      BoxAppend(box[1..], m, c);
    }
  }

  lemma {:induction false} BoxWithout(box: seq<Msg>, k: nat, c: nat)
    requires k < |box|
    ensures FromIn(Without(box, k), c) == FromIn(box, c) - B(IsFrom(box[k], c))
    ensures DestIn(Without(box, k)) == DestIn(box) - B(box[k].Dest?)
    decreases |box|
  {
    if k == 0 {
      assert Without(box, 0) == box[1..];
    } else {
      assert Without(box, k)[0] == box[0];
      assert Without(box, k)[1..] == Without(box[1..], k - 1);
      BoxWithout(box[1..], k - 1, c);
    }
  }

  lemma {:induction false} BoxWitness(box: seq<Msg>, c: nat) returns (k: nat)
    requires FromIn(box, c) > 0
    ensures k < |box| && IsFrom(box[k], c)
    decreases |box|
  {
    if IsFrom(box[0], c) { k := 0; } else { k := BoxWitness(box[1..], c); k := k + 1; }
  }

  lemma {:induction false} DestWitness(box: seq<Msg>) returns (k: nat)
    requires DestIn(box) > 0
    ensures k < |box| && box[k].Dest?
    decreases |box|
  {
    if box[0].Dest? { k := 0; } else { k := DestWitness(box[1..]); k := k + 1; }
  }

  lemma {:induction false} BoxHas(box: seq<Msg>, k: nat, c: nat)
    requires k < |box|
    ensures IsFrom(box[k], c) ==> FromIn(box, c) > 0
    ensures box[k].Dest? ==> DestIn(box) > 0
    decreases |box|
  {
    if k > 0 { BoxHas(box[1..], k - 1, c); }
  }

  function Pending(s: State, c: nat): nat
    requires Shaped(s) && c < |s.cl|
  {
    |s.transit[c]| + FromIn(s.box, c)
  }

  // ----- the invariant -----

  /** The only message a client in this phase can have outstanding. */
  predicate Expected(p: Phase, c: nat, m: Msg) {
    match p
    case AwaitOk => m == Ask(c)
    case Report | Finished => m == Give(c)
    case _ => false
  }

  /** c has been granted and the server has not taken its Give yet. */
  predicate Holds(s: State, c: nat)
    requires Shaped(s) && c < |s.cl|
  {
    match s.cl[c]
    case Request => false
    case AwaitOk => s.oks[c]
    case Critical | Release => true
    case Report | Finished => Pending(s, c) > 0
  }

  predicate ClientOk(s: State, c: nat)
    requires Shaped(s) && c < |s.cl|
  {
    && (forall i :: 0 <= i < |s.transit[c]| ==> Expected(s.cl[c], c, s.transit[c][i]))
    && (match s.cl[c]
        case Request | Critical | Release => Pending(s, c) == 0 && !s.oks[c] && s.server != SemZero(c)
        case AwaitOk => Pending(s, c) + B(s.oks[c]) + B(s.server == SemZero(c)) == 1
        case Report | Finished => Pending(s, c) <= 1 && !s.oks[c] && s.server != SemZero(c))
    && (s.server.LockFree? ==> !Holds(s, c))
    && (s.server.LockHeld? ==> (Holds(s, c) <==> s.server.owner == c))
  }

  predicate BoxOk(s: State)
    requires Shaped(s)
  {
    forall i :: 0 <= i < |s.box| ==>
      s.box[i].Dest? || (s.box[i].from < |s.cl| && Expected(s.cl[s.box[i].from], s.box[i].from, s.box[i]))
  }

  predicate IsFinished(p: Phase) { p.Finished? }

  predicate WaiterOk(s: State)
    requires Shaped(s)
  {
    && s.left <= |s.cl|
    && Count(s.cl, IsFinished) == |s.cl| - s.left + s.reports
    && B(s.destTransit) + DestIn(s.box) == B(s.dismissed && !s.server.Gone?)
    && (s.server.Gone? ==> s.dismissed)
    && (s.dismissed ==> s.left == 0)
    && (s.server.LockHeld? ==> s.server.owner < |s.cl|)
    && (s.server.SemZero? ==> s.server.next < |s.cl|)
  }

  ghost predicate Inv(s: State) {
    && Shaped(s) && BoxOk(s) && WaiterOk(s)
    && forall c :: 0 <= c < |s.cl| ==> ClientOk(s, c)
  }

  function HoldersOf(s: State): set<nat>
    requires Shaped(s)
  {
    set c: nat | c < |s.cl| && Holds(s, c)
  }

  /** The counting semaphore the server implements; the inner receives have no free place. */
  function Abs(s: State): Spec.State
    requires Shaped(s)
  {
    Spec.State(match s.server case LockFree => 1 case Sem(v) => v case _ => 0, HoldersOf(s))
  }

  // ----- it is kept -----

  lemma ClientKeepsSelf(s: State, c: nat)
    requires Inv(s) && c < |s.cl|
    ensures Shaped(ClientStep(s, c)) && |ClientStep(s, c).cl| == |s.cl| && ClientOk(ClientStep(s, c), c)
  {
    assert ClientOk(s, c);
    match s.cl[c]
    case Request =>
    case AwaitOk =>
    case Critical =>
    case Release =>
    case Report =>
    case Finished =>
  }

  lemma ClientKeepsOther(s: State, c: nat, d: nat)
    requires Shaped(s) && c < |s.cl| && d < |s.cl| && d != c && ClientOk(s, d)
    ensures Shaped(ClientStep(s, c)) && |ClientStep(s, c).cl| == |s.cl| && ClientOk(ClientStep(s, c), d)
  {
    var s' := ClientStep(s, c);
    assert s'.cl[d] == s.cl[d] && s'.transit[d] == s.transit[d] && s'.oks[d] == s.oks[d];
    assert s'.box == s.box && s'.server == s.server;
  }

  lemma ClientKeepsBox(s: State, c: nat)
    requires Inv(s) && c < |s.cl|
    ensures Shaped(ClientStep(s, c)) && BoxOk(ClientStep(s, c))
  {
    var s' := ClientStep(s, c);
    assert ClientOk(s, c) && s'.box == s.box;
    forall i | 0 <= i < |s.box|
      ensures s.box[i].Dest? || (s.box[i].from < |s'.cl| && Expected(s'.cl[s.box[i].from], s.box[i].from, s.box[i]))
    {
      BoxHas(s.box, i, c);
    }
  }

  lemma ClientKeepsWaiter(s: State, c: nat)
    requires Shaped(s) && WaiterOk(s) && c < |s.cl|
    ensures Shaped(ClientStep(s, c)) && WaiterOk(ClientStep(s, c))
  {
    var s' := ClientStep(s, c);
    assert s'.cl == s.cl[c := s'.cl[c]];
    assert s'.server == s.server && s'.box == s.box && s'.dismissed == s.dismissed && s'.left == s.left;
    CountUpdate(s.cl, c, s'.cl[c], IsFinished);
  }

  lemma ClientKeepsInv(s: State, c: nat)
    requires Inv(s) && c < |s.cl|
    ensures Inv(ClientStep(s, c)) && |ClientStep(s, c).cl| == |s.cl|
  {
    ClientKeepsSelf(s, c);
    ClientKeepsBox(s, c);
    ClientKeepsWaiter(s, c);
    forall d | 0 <= d < |s.cl| ensures ClientOk(ClientStep(s, c), d) {
      if d != c { ClientKeepsOther(s, c, d); }
    }
  }

  lemma DeliverKeepsInv(s: State, c: nat)
    requires Inv(s) && c < |s.cl| && s.transit[c] != []
    ensures Inv(Step(s, Deliver(c)))
  {
    var s' := Step(s, Deliver(c));
    assert ClientOk(s, c);
    forall d | 0 <= d < |s.cl| ensures ClientOk(s', d) {
      assert ClientOk(s, d);
      BoxAppend(s.box, s.transit[c][0], d);
    }
    BoxAppend(s.box, s.transit[c][0], c);
  }

  lemma DeliverDestKeepsInv(s: State)
    requires Inv(s) && s.destTransit
    ensures Inv(Step(s, DeliverDest))
  {
    var s' := Step(s, DeliverDest);
    forall d | 0 <= d < |s.cl| ensures ClientOk(s', d) {
      assert ClientOk(s, d);
      BoxAppend(s.box, Dest, d);
    }
    BoxAppend(s.box, Dest, 0);
  }

  /** What the server knows of the message it takes. */
  lemma TakenMessage(s: State, k: nat, d: nat)
    requires Inv(s) && k < |s.box| && d < |s.cl|
    ensures var m, rest := s.box[k], Without(s.box, k);
      && (m.Dest? || m.from < |s.cl|)
      && FromIn(rest, d) == FromIn(s.box, d) - B(IsFrom(m, d))
      && (IsFrom(m, d) ==> Expected(s.cl[d], d, m))
  {
    BoxWithout(s.box, k, d);
  }

  lemma TakeAskKeepsClient(s: State, d: nat)
    requires Inv(s) && d < |s.cl| && (s.server.LockFree? || s.server.Sem?)
    requires var k := Match(s.server, s.box); k < |s.box| && s.box[k].Ask?
    ensures Shaped(ServerStep(s)) && ClientOk(ServerStep(s), d)
  {
    var k := Match(s.server, s.box);
    assert ClientOk(s, d) && ClientOk(s, s.box[k].from);
    TakenMessage(s, k, d);
    TakenMessage(s, k, s.box[k].from);
    BoxHas(s.box, k, s.box[k].from);
  }

  lemma TakeGiveKeepsClient(s: State, d: nat)
    requires Inv(s) && d < |s.cl| && !s.server.SemZero?
    requires var k := Match(s.server, s.box); k < |s.box| && s.box[k].Give?
    ensures Shaped(ServerStep(s)) && ClientOk(ServerStep(s), d)
  {
    var k := Match(s.server, s.box);
    assert ClientOk(s, d) && ClientOk(s, s.box[k].from);
    TakenMessage(s, k, d);
    TakenMessage(s, k, s.box[k].from);
  }

  lemma HandOverKeepsClient(s: State, d: nat)
    requires Inv(s) && d < |s.cl| && s.server.SemZero?
    requires Match(s.server, s.box) < |s.box|
    ensures Shaped(ServerStep(s)) && ClientOk(ServerStep(s), d)
  {
    var k := Match(s.server, s.box);
    assert ClientOk(s, d) && ClientOk(s, s.server.next);
    TakenMessage(s, k, d);
  }

  lemma TakeDestKeepsClient(s: State, d: nat)
    requires Inv(s) && d < |s.cl|
    requires var k := Match(s.server, s.box); k < |s.box| && s.box[k].Dest?
    ensures Shaped(ServerStep(s)) && ClientOk(ServerStep(s), d)
  {
    assert ClientOk(s, d);
    TakenMessage(s, Match(s.server, s.box), d);
  }

  lemma ReceiveKeepsBox(s: State)
    requires Shaped(s) && BoxOk(s) && Match(s.server, s.box) < |s.box|
    ensures BoxOk(s.(box := Without(s.box, Match(s.server, s.box))))
  {
    var k := Match(s.server, s.box);
    var rest := Without(s.box, k);
    assert forall i :: 0 <= i < |rest| ==> rest[i] == if i < k then s.box[i] else s.box[i + 1];
  }

  lemma ReceiveKeepsWaiter(s: State)
    requires Shaped(s) && BoxOk(s) && WaiterOk(s)
    ensures Shaped(ServerStep(s)) && WaiterOk(ServerStep(s)) && BoxOk(ServerStep(s))
  {
    var k := Match(s.server, s.box);
    if k < |s.box| {
      ReceiveKeepsBox(s);
      var s', m := ServerStep(s), s.box[k];
      BoxWithout(s.box, k, 0);
      BoxHas(s.box, k, 0);
      assert s'.box == Without(s.box, k) && s'.cl == s.cl;
      assert s'.server.Gone? <==> m.Dest?;
    }
  }

  lemma ReceiveKeepsInv(s: State)
    requires Inv(s)
    ensures Inv(ServerStep(s)) && |ServerStep(s).cl| == |s.cl|
  {
    var k := Match(s.server, s.box);
    ReceiveKeepsWaiter(s);
    if k < |s.box| {
      forall d | 0 <= d < |s.cl| ensures ClientOk(ServerStep(s), d) {
        if s.box[k].Dest? { TakeDestKeepsClient(s, d); }
        else if s.server.SemZero? { HandOverKeepsClient(s, d); }
        else if s.box[k].Ask? { TakeAskKeepsClient(s, d); }
        else { TakeGiveKeepsClient(s, d); }
      }
    }
  }

  lemma StepKeepsInv(s: State, a: Action)
    requires Inv(s)
    ensures Inv(Step(s, a)) && |Step(s, a).cl| == |s.cl|
  {
    match a
    case Client(c) => if c < |s.cl| { ClientKeepsInv(s, c); }
    case Deliver(c) => if c < |s.cl| && s.transit[c] != [] { DeliverKeepsInv(s, c); }
    case DeliverDest => if s.destTransit { DeliverDestKeepsInv(s); }
    case Receive => ReceiveKeepsInv(s);
    case TakeReport | Dismiss =>
      var s' := Step(s, a);
      forall d | 0 <= d < |s.cl| ensures ClientOk(s', d) { assert ClientOk(s, d); }
  }

  lemma InitInv(n: nat, server: Server)
    requires Fresh(server)
    ensures Inv(Init(n, server))
  {
    NobodyFinished(Init(n, server).cl);
  }

  lemma NobodyFinished(cl: seq<Phase>)
    requires forall c :: 0 <= c < |cl| ==> cl[c] == Request
    ensures Count(cl, IsFinished) == 0
  {
    CountBounds(cl, IsFinished);
  }

  lemma ReachableInv(n: nat, server: Server, schedule: seq<Action>)
    requires Fresh(server)
    ensures Inv(Exec(Step, Init(n, server), schedule)) && |Exec(Step, Init(n, server), schedule).cl| == n
  {
    InitInv(n, server);
    forall s: State, a: Action | Inv(s) && |s.cl| == n ensures Inv(Step(s, a)) && |Step(s, a).cl| == n {
      StepKeepsInv(s, a);
    }
    InvariantHolds(Step, (s: State) => Inv(s) && |s.cl| == n, Init(n, server), schedule);
  }

  // ----- refinement of the counting semaphore -----

  lemma QuietHolders(s: State, a: Action, d: nat)
    requires Inv(s) && d < |s.cl| && !a.Receive?
    ensures |Step(s, a).cl| == |s.cl| && Shaped(Step(s, a)) && Holds(Step(s, a), d) == Holds(s, d)
  {
    assert ClientOk(s, d);
    match a
    case Client(c) => if c < |s.cl| { ClientHolders(s, c, d); }
    case Deliver(c) =>
      if c < |s.cl| && s.transit[c] != [] {
        BoxAppend(s.box, s.transit[c][0], d);
        assert ClientOk(s, c);
      }
    case DeliverDest => BoxAppend(s.box, Dest, d);
    case _ =>
  }

  lemma ClientHolders(s: State, c: nat, d: nat)
    requires Inv(s) && c < |s.cl| && d < |s.cl|
    ensures var s' := ClientStep(s, c); Shaped(s') && |s'.cl| == |s.cl| && Holds(s', d) == Holds(s, d)
  {
    assert ClientOk(s, c) && ClientOk(s, d);
  }

  /** An Ask that is granted makes its sender a holder; the one taken by semHandler(0) does not yet. */
  lemma AskHolders(s: State, d: nat)
    requires Inv(s) && d < |s.cl| && Match(s.server, s.box) < |s.box| && s.box[Match(s.server, s.box)].Ask?
    ensures var s', m := ServerStep(s), s.box[Match(s.server, s.box)];
      && Shaped(s') && |s'.cl| == |s.cl|
      && Holds(s', d) == (Holds(s, d) || (d == m.from && s.server != Sem(0)))
      && (d == m.from ==> !Holds(s, d))
  {
    var k := Match(s.server, s.box);
    assert ClientOk(s, d);
    TakenMessage(s, k, d);
    BoxHas(s.box, k, s.box[k].from);
  }

  /** A Give makes its sender stop being a holder, and the client semHandler(0) keeps waiting one. */
  lemma GiveHolders(s: State, d: nat)
    requires Inv(s) && d < |s.cl| && Match(s.server, s.box) < |s.box| && s.box[Match(s.server, s.box)].Give?
    ensures var s', m := ServerStep(s), s.box[Match(s.server, s.box)];
      && Shaped(s') && |s'.cl| == |s.cl|
      && Holds(s', d) == ((Holds(s, d) && d != m.from) || s.server == SemZero(d))
      && (d == m.from ==> Holds(s, d) && s.server != SemZero(d))
      && (s.server == SemZero(d) ==> !Holds(s, d))
  {
    var k := Match(s.server, s.box);
    assert ClientOk(s, d);
    TakenMessage(s, k, d);
    BoxHas(s.box, k, s.box[k].from);
  }

  lemma AskRefines(s: State)
    requires Inv(s) && Match(s.server, s.box) < |s.box| && s.box[Match(s.server, s.box)].Ask?
    ensures Shaped(ServerStep(s)) && Spec.Next(Abs(s), Abs(ServerStep(s)))
  {
    var s', m := ServerStep(s), s.box[Match(s.server, s.box)];
    ReceiveKeepsInv(s);
    forall d: nat | d < |s.cl| ensures Holds(s', d) == (Holds(s, d) || (d == m.from && s.server != Sem(0))) {
      AskHolders(s, d);
    }
    AskHolders(s, m.from);
    if s.server == Sem(0) {
      assert HoldersOf(s') == HoldersOf(s);
    } else {
      assert HoldersOf(s') == HoldersOf(s) + {m.from};
      assert Spec.Acquire(Abs(s), Abs(s'), m.from);
    }
  }

  lemma GiveRefines(s: State)
    requires Inv(s) && Match(s.server, s.box) < |s.box| && s.box[Match(s.server, s.box)].Give?
    ensures Shaped(ServerStep(s)) && Spec.Next(Abs(s), Abs(ServerStep(s)))
  {
    var s', m := ServerStep(s), s.box[Match(s.server, s.box)];
    ReceiveKeepsInv(s);
    forall d: nat | d < |s.cl| ensures Holds(s', d) == ((Holds(s, d) && d != m.from) || s.server == SemZero(d)) {
      GiveHolders(s, d);
    }
    GiveHolders(s, m.from);
    if s.server.SemZero? {
      var c := s.server.next;
      GiveHolders(s, c);
      assert HoldersOf(s') == HoldersOf(s) - {m.from} + {c};
      assert Spec.HandOver(Abs(s), Abs(s'), m.from, c);
    } else {
      assert HoldersOf(s') == HoldersOf(s) - {m.from};
      assert Spec.Release(Abs(s), Abs(s'), m.from);
    }
  }

  /** Until it is destroyed, every step of the server and its clients is one of a counting semaphore;
      the inner receive of semHandler(0) hands a place over. */
  lemma StepRefines(s: State, a: Action)
    requires Inv(s) && !Step(s, a).server.Gone?
    ensures Shaped(Step(s, a)) && Spec.Next(Abs(s), Abs(Step(s, a)))
  {
    var s' := Step(s, a);
    StepKeepsInv(s, a);
    if a.Receive? && Match(s.server, s.box) < |s.box| {
      if s.box[Match(s.server, s.box)].Ask? { AskRefines(s); } else { GiveRefines(s); }
    } else if !a.Receive? {
      forall d: nat | d < |s.cl| ensures Holds(s', d) == Holds(s, d) { QuietHolders(s, a, d); }
      assert HoldersOf(s') == HoldersOf(s);
      assert s'.server == s.server;
    }
  }

  lemma {:induction false} SomeoneUnfinished(cl: seq<Phase>, c: nat)
    requires c < |cl| && !IsFinished(cl[c])
    ensures Count(cl, IsFinished) < |cl|
  {
    CountUpdate(cl, c, Finished, IsFinished);
    CountBounds(cl[c := Finished], IsFinished);
  }

  lemma DismissedAllFinished(s: State)
    requires Inv(s) && s.left == 0
    ensures s.reports == 0 && forall c :: 0 <= c < |s.cl| ==> s.cl[c] == Finished
  {
    CountBounds(s.cl, IsFinished);
    forall c | 0 <= c < |s.cl| ensures s.cl[c] == Finished {
      if s.cl[c] != Finished { SomeoneUnfinished(s.cl, c); }
    }
  }

  ghost predicate Capped(s: State, capacity: nat)
    requires Shaped(s)
  {
    && |HoldersOf(s)| <= capacity
    && (!s.server.Gone? ==> Abs(s).value + |HoldersOf(s)| == capacity)
  }

  lemma StepKeepsCapped(s: State, a: Action, capacity: nat)
    requires Inv(s) && Capped(s, capacity)
    ensures Shaped(Step(s, a)) && Capped(Step(s, a), capacity)
  {
    StepKeepsInv(s, a);
    if Step(s, a).server.Gone? {
      GoneKeepsHolders(s, a);
    } else {
      StepRefines(s, a);
      Spec.NextConserves(Abs(s), Abs(Step(s, a)));
    }
  }

  /** The places are conserved in every run until the server is gone, so at most `capacity` clients are
      between grant and return of their place. */
  lemma {:induction false} CapacityKept(n: nat, server: Server, schedule: seq<Action>)
    requires Fresh(server)
    ensures var s := Exec(Step, Init(n, server), schedule);
      Shaped(s) && Capped(s, Capacity(server))
    decreases |schedule|
  {
    var s0 := Init(n, server);
    if schedule == [] {
      assert HoldersOf(s0) == {};
    } else {
      var before, a := schedule[..|schedule| - 1], schedule[|schedule| - 1];
      CapacityKept(n, server, before);
      ReachableInv(n, server, before);
      StepKeepsCapped(Exec(Step, s0, before), a, Capacity(server));
    }
  }

  lemma GoneKeepsHolders(s: State, a: Action)
    requires Inv(s) && Step(s, a).server.Gone?
    ensures Shaped(Step(s, a)) && HoldersOf(Step(s, a)) == HoldersOf(s)
  {
    var s' := Step(s, a);
    StepKeepsInv(s, a);
    forall d: nat | d < |s.cl| ensures Holds(s', d) == Holds(s, d) {
      if !a.Receive? {
        QuietHolders(s, a, d);
      } else if Match(s.server, s.box) < |s.box| {
        BoxWithout(s.box, Match(s.server, s.box), d);
      }
    }
  }

  /** At most one client of the lock is between grant and unlock. */
  lemma LockExcludes(n: nat, schedule: seq<Action>, c: nat, d: nat)
    requires c < n && d < n && c != d
    ensures var s := Exec(Step, Init(n, LockFree), schedule);
            Shaped(s) && |s.cl| == n && !(Holds(s, c) && Holds(s, d)) && !(s.cl[c].Critical? && s.cl[d].Critical?)
  {
    ReachableInv(n, LockFree, schedule);
    CapacityKept(n, LockFree, schedule);
    var s := Exec(Step, Init(n, LockFree), schedule);
    if Holds(s, c) && Holds(s, d) {
      assert {c, d} <= HoldersOf(s);
      SubsetSize({c, d}, HoldersOf(s));
    }
  }

  lemma SubsetSize(a: set<nat>, b: set<nat>)
    requires a <= b
    ensures |a| <= |b|
  {
    assert b == a + (b - a);
  }

  /** The server ends only when every client has finished: dest strands nobody. */
  lemma DestStrandsNobody(n: nat, server: Server, schedule: seq<Action>)
    requires Fresh(server) && Exec(Step, Init(n, server), schedule).server.Gone?
    ensures forall c :: 0 <= c < n ==>
              |Exec(Step, Init(n, server), schedule).cl| == n && Exec(Step, Init(n, server), schedule).cl[c] == Finished
  {
    ReachableInv(n, server, schedule);
    DismissedAllFinished(Exec(Step, Init(n, server), schedule));
  }

  // ----- no reachable state is a trap -----

  function PhaseRank(p: Phase): nat {
    match p
    case Request => 13
    case AwaitOk => 9
    case Critical => 8
    case Release => 7
    case Report => 3
    case Finished => 0
  }

  /** Steps left on behalf of client c: its own, its messages' and the server's. */
  function WorkAt(s: State, c: nat): nat
    requires Shaped(s) && c < |s.cl|
  {
    PhaseRank(s.cl[c]) + 2 * |s.transit[c]| + FromIn(s.box, c)
  }

  function AllWork(s: State): seq<nat>
    requires Shaped(s)
  {
    seq(|s.cl|, c requires 0 <= c < |s.cl| => WorkAt(s, c))
  }

  function WorkLeft(s: State): nat
    requires Shaped(s)
  {
    Sum(AllWork(s)) + 2 * s.reports + B(!s.dismissed) * 3 + 2 * B(s.destTransit) + DestIn(s.box)
  }

  lemma WorkAtOne(s: State, s': State, c: nat)
    requires Shaped(s) && Shaped(s') && |s'.cl| == |s.cl| && c < |s.cl|
    requires forall d :: 0 <= d < |s.cl| && d != c ==> WorkAt(s', d) == WorkAt(s, d)
    ensures Sum(AllWork(s')) == Sum(AllWork(s)) - WorkAt(s, c) + WorkAt(s', c)
  {
    assert AllWork(s') == AllWork(s)[c := WorkAt(s', c)];
    SumUpdate(AllWork(s), c, WorkAt(s', c));
  }

  lemma ClientWork(s: State, c: nat)
    requires Shaped(s) && c < |s.cl| && ClientStep(s, c) != s
    ensures Shaped(ClientStep(s, c)) && WorkLeft(ClientStep(s, c)) < WorkLeft(s)
  {
    var s' := ClientStep(s, c);
    assert s'.box == s.box && s'.destTransit == s.destTransit && s'.dismissed == s.dismissed;
    WorkAtOne(s, s', c);
  }

  /** A step that happens leaves less to do. */
  lemma WorkDecreases(s: State, a: Action)
    requires Inv(s) && Step(s, a) != s
    ensures Shaped(Step(s, a)) && WorkLeft(Step(s, a)) < WorkLeft(s)
  {
    match a
    case Client(c) => ClientWork(s, c);
    case Deliver(c) => DeliverWork(s, c);
    case DeliverDest => DestWork(s);
    case Receive => ReceiveWork(s);
    case TakeReport | Dismiss => assert AllWork(Step(s, a)) == AllWork(s);
  }

  lemma DeliverWork(s: State, c: nat)
    requires Inv(s) && c < |s.cl| && s.transit[c] != []
    ensures Shaped(Step(s, Deliver(c))) && WorkLeft(Step(s, Deliver(c))) < WorkLeft(s)
  {
    var s', m := Step(s, Deliver(c)), s.transit[c][0];
    assert ClientOk(s, c);
    forall d | 0 <= d < |s.cl| ensures FromIn(s'.box, d) == FromIn(s.box, d) + B(IsFrom(m, d)) { BoxAppend(s.box, m, d); }
    BoxAppend(s.box, m, c);
    WorkAtOne(s, s', c);
  }

  lemma DestWork(s: State)
    requires Inv(s) && s.destTransit
    ensures Shaped(Step(s, DeliverDest)) && WorkLeft(Step(s, DeliverDest)) < WorkLeft(s)
  {
    var s' := Step(s, DeliverDest);
    forall d | 0 <= d < |s.cl| ensures FromIn(s'.box, d) == FromIn(s.box, d) { BoxAppend(s.box, Dest, d); }
    BoxAppend(s.box, Dest, 0);
    assert AllWork(s') == AllWork(s);
  }

  lemma ServerBox(s: State)
    requires Match(s.server, s.box) < |s.box| && Shaped(s)
    ensures var s', k := ServerStep(s), Match(s.server, s.box);
      && s'.box == Without(s.box, k) && s'.cl == s.cl && s'.transit == s.transit && s'.reports == s.reports
      && s'.dismissed == s.dismissed && s'.destTransit == s.destTransit && Shaped(s')
  {
  }

  lemma ReceiveWork(s: State)
    requires Inv(s) && Match(s.server, s.box) < |s.box|
    ensures Shaped(ServerStep(s)) && WorkLeft(ServerStep(s)) < WorkLeft(s)
  {
    var k := Match(s.server, s.box);
    var s', m := ServerStep(s), s.box[k];
    ServerBox(s);
    BoxWithout(s.box, k, 0);
    if m.Dest? {
      forall d | 0 <= d < |s.cl| ensures WorkAt(s', d) == WorkAt(s, d) { BoxWithout(s.box, k, d); }
      assert AllWork(s') == AllWork(s);
    } else {
      forall d | 0 <= d < |s.cl| && d != m.from ensures WorkAt(s', d) == WorkAt(s, d) { BoxWithout(s.box, k, d); }
      BoxWithout(s.box, k, m.from);
      WorkAtOne(s, s', m.from);
    }
  }

  /** Everybody waits for the server or has finished, and every message has arrived. */
  predicate Settled(s: State)
    requires Shaped(s)
  {
    && (forall c :: 0 <= c < |s.cl| ==> s.transit[c] == [] && ((s.cl[c].AwaitOk? && !s.oks[c]) || s.cl[c].Finished?))
    && !s.destTransit && s.reports == 0 && (s.left == 0 ==> s.dismissed)
  }

  /** There is a place to be had, or nobody who needs one. */
  ghost predicate Roomy(s: State)
    requires Shaped(s)
  {
    Abs(s).value + |HoldersOf(s)| > 0 || s.cl == []
  }

  /** Then the server has a message it can take. */
  lemma SettledServerMoves(s: State)
    requires Inv(s) && Settled(s) && !s.server.Gone? && Roomy(s)
    ensures Match(s.server, s.box) < |s.box|
  {
    if s.server.LockHeld? || s.server.SemZero? {
      var h: nat := 0;
      if s.server.LockHeld? {
        h := s.server.owner;
      } else {
        assert |HoldersOf(s)| > 0;
        h :| h in HoldersOf(s);
      }
      assert ClientOk(s, h);
      var k := BoxWitness(s.box, h);
      assert Wanted(s.server, s.box[k]);
    } else if c: nat :| c < |s.cl| && s.cl[c].AwaitOk? {
      assert ClientOk(s, c);
      var k := BoxWitness(s.box, c);
      assert Wanted(s.server, s.box[k]);
    } else {
      CountBounds(s.cl, IsFinished);
      var k := DestWitness(s.box);
      assert Wanted(s.server, s.box[k]);
    }
  }

  lemma NeverStuck(s: State) returns (a: Action)
    requires Inv(s) && !s.server.Gone? && Roomy(s)
    ensures Step(s, a) != s
  {
    CountBounds(s.cl, IsFinished);
    if c: nat :| c < |s.cl| && s.transit[c] != [] {
      a := Deliver(c);
      assert |Step(s, a).transit[c]| < |s.transit[c]|;
    } else if c: nat :| c < |s.cl| && !(s.cl[c].AwaitOk? && !s.oks[c]) && !s.cl[c].Finished? {
      a := Client(c);
      assert Step(s, a).cl[c] != s.cl[c];
    } else if s.destTransit {
      a := DeliverDest;
    } else if s.reports > 0 {
      a := TakeReport;
    } else if s.left == 0 && !s.dismissed {
      a := Dismiss;
    } else {
      a := Receive;
      SettledServerMoves(s);
      ServerBox(s);
      assert |Step(s, a).box| < |s.box|;
    }
  }

  /** With room for at least one client, or with no clients, every run can be continued until the server is gone, all the
      clients having finished. */
  lemma {:induction false} CanFinish(s: State) returns (s': State)
    requires Inv(s) && (!s.server.Gone? ==> Roomy(s))
    ensures Reaches(Step, s, s') && s'.server.Gone? && |s'.cl| == |s.cl|
    ensures forall c :: 0 <= c < |s'.cl| ==> s'.cl[c] == Finished
    decreases WorkLeft(s)
  {
    if s.server.Gone? {
      s' := s;
      ReachesSelf(Step, s);
      DismissedAllFinished(s);
    } else {
      var a := NeverStuck(s);
      WorkDecreases(s, a);
      StepKeepsInv(s, a);
      if !Step(s, a).server.Gone? {
        StepRefines(s, a);
        Spec.NextConserves(Abs(s), Abs(Step(s, a)));
      }
      s' := CanFinish(Step(s, a));
      ReachesStepFirst(Step, s, a, s');
    }
  }

  predicate AllThrough(s: State, n: nat) {
    s.server.Gone? && |s.cl| == n && forall c :: 0 <= c < n ==> s.cl[c] == Finished
  }

  /** Nobody is stranded: whatever has happened, all n clients can still get through and finish. */
  lemma EveryoneCanFinish(n: nat, server: Server, schedule: seq<Action>) returns (rest: seq<Action>)
    requires Fresh(server) && (Capacity(server) > 0 || n == 0)
    ensures AllThrough(Exec(Step, Init(n, server), schedule + rest), n)
  {
    var s0 := Init(n, server);
    ReachableInv(n, server, schedule);
    CapacityKept(n, server, schedule);
    var s := CanFinish(Exec(Step, s0, schedule));
    rest :| Exec(Step, Exec(Step, s0, schedule), rest) == s;
    ExecConcat(Step, s0, schedule, rest);
  }

  // ----- a semaphore created with 0 -----

  /** Nobody has ever been granted a place. */
  predicate Starved(s: State) {
    && Shaped(s) && s.cl != [] && s.left == |s.cl|
    && (s.server == Sem(0) || s.server.SemZero?)
    && forall c :: 0 <= c < |s.cl| ==> (s.cl[c].Request? || s.cl[c].AwaitOk?) && !s.oks[c]
  }

  lemma StepKeepsStarved(s: State, a: Action)
    requires Inv(s) && Starved(s)
    ensures Starved(Step(s, a))
  {
    CountBounds(s.cl, IsFinished);
    if a.Receive? {
      StarvedReceive(s);
    }
  }

  /** Give and dest have never been sent, so the server can only take a first Ask. */
  lemma StarvedReceive(s: State)
    requires Inv(s) && Starved(s)
    ensures Starved(ServerStep(s))
  {
    var k := Match(s.server, s.box);
    if k < |s.box| {
      BoxHas(s.box, k, 0);
      assert s.box[k].Ask?;
    }
  }

  lemma ReachableStarved(n: nat, schedule: seq<Action>)
    requires n > 0
    ensures Starved(Exec(Step, Init(n, Sem(0)), schedule))
  {
    InitInv(n, Sem(0));
    forall s: State, a: Action | Inv(s) && Starved(s) ensures Inv(Step(s, a)) && Starved(Step(s, a)) {
      StepKeepsInv(s, a);
      StepKeepsStarved(s, a);
    }
    InvariantHolds(Step, (s: State) => Inv(s) && Starved(s), Init(n, Sem(0)), schedule);
  }

  ghost predicate Completes(n: nat, server: Server, schedule: seq<Action>, rest: seq<Action>) {
    AllThrough(Exec(Step, Init(n, server), schedule + rest), n)
  }

  ghost predicate CanFinishAfter(n: nat, server: Server, schedule: seq<Action>) {
    exists rest: seq<Action> :: Completes(n, server, schedule, rest)
  }

  /** Every run of n clients can be continued until they have all got through. */
  ghost predicate CanAlwaysFinish(n: nat, server: Server) {
    forall schedule: seq<Action> :: CanFinishAfter(n, server, schedule)
  }

  /** It can exactly when there is at least one place, or no client. */
  lemma FinishIff(n: nat, server: Server)
    requires Fresh(server)
    ensures CanAlwaysFinish(n, server) <==> Capacity(server) > 0 || n == 0
  {
    if Capacity(server) > 0 || n == 0 {
      forall schedule: seq<Action> ensures CanFinishAfter(n, server, schedule) {
        var rest := EveryoneCanFinish(n, server, schedule);
        assert Completes(n, server, schedule, rest);
      }
    } else {
      NoneFinishes(n);
      assert !CanFinishAfter(n, server, []);
    }
  }

  /** With no place every client is still asking after every schedule. */
  lemma NoneFinishes(n: nat)
    requires n > 0
    ensures forall schedule: seq<Action> :: !CanFinishAfter(n, Sem(0), schedule)
  {
    forall schedule: seq<Action>, rest: seq<Action> ensures !Completes(n, Sem(0), schedule, rest) {
      ReachableStarved(n, schedule + rest);
    }
  }

  // ----- who is granted a place -----

  /** The server waits for a request and has a place. */
  predicate HasPlace(server: Server) { server.LockFree? || (server.Sem? && server.value > 0) }

  function Taken(server: Server, c: nat): Server
    requires HasPlace(server)
  {
    if server.LockFree? then LockHeld(c) else Sem(server.value - 1)
  }

  /** A request that a server with a place takes is granted at once, to the client that made it. */
  lemma AskIsGranted(s: State, c: nat)
    requires Inv(s) && HasPlace(s.server) && Match(s.server, s.box) < |s.box|
    requires s.box[Match(s.server, s.box)] == Ask(c)
    ensures c < |s.cl|
    ensures Step(s, Receive) ==
      s.(box := Without(s.box, Match(s.server, s.box)), oks := s.oks[c := true], server := Taken(s.server, c))
  {
  }

  /** The server with its mailbox empty and client c inside. */
  function Inside(s: State, c: nat): State
    requires c < |s.cl| && HasPlace(s.server)
  {
    s.(cl := s.cl[c := Critical], server := Taken(s.server, c))
  }

  lemma EntersSteps(s: State, c: nat)
    requires Inv(s) && c < |s.cl| && s.cl[c].Request? && s.box == [] && HasPlace(s.server)
    ensures Step(Step(Step(Step(s, Client(c)), Deliver(c)), Receive), Client(c)) == Inside(s, c)
  {
    assert ClientOk(s, c);
    assert s.transit[c] == [] && s.transit[c := []] == s.transit;
    var s1 := Step(s, Client(c));
    assert [] + [Ask(c)] == [Ask(c)];
    assert s1 == s.(cl := s.cl[c := AwaitOk], transit := s.transit[c := [Ask(c)]]);
    var s2 := Step(s1, Deliver(c));
    assert s1.transit[c][1..] == [];
    assert s2 == s.(cl := s.cl[c := AwaitOk], box := [Ask(c)]);
    assert Match(s2.server, s2.box) == 0 && Without(s2.box, 0) == [];
    var s3 := Step(s2, Receive);
    assert s3 == s.(cl := s.cl[c := AwaitOk], oks := s.oks[c := true], server := Taken(s.server, c));
    assert s3.oks[c := false] == s.oks;
    assert s3.cl[c := Critical] == s.cl[c := Critical];
  }

  /** With a place left and no other request about, a client goes in: nobody else has to move. */
  lemma EntersAlone(s: State, c: nat)
    requires Inv(s) && c < |s.cl| && s.cl[c].Request? && s.box == [] && HasPlace(s.server)
    ensures Reaches(Step, s, Inside(s, c)) && Inv(Inside(s, c)) && Holds(Inside(s, c), c)
  {
    var s1 := Step(s, Client(c));
    var s2 := Step(s1, Deliver(c));
    var s3 := Step(s2, Receive);
    EntersSteps(s, c);
    ReachesSelf(Step, s);
    ReachesStep(Step, s, s, Client(c));
    ReachesStep(Step, s, s1, Deliver(c));
    ReachesStep(Step, s, s2, Receive);
    ReachesStep(Step, s, s3, Client(c));
    StepKeepsInv(s, Client(c));
    StepKeepsInv(s1, Deliver(c));
    StepKeepsInv(s2, Receive);
    StepKeepsInv(s3, Client(c));
  }

  /** A semaphore is used to the full: for every k up to the capacity some run has k clients inside at once. */
  lemma {:induction false} CapacityCanBeUsed(n: nat, capacity: nat, k: nat) returns (s: State)
    requires k <= n && k <= capacity
    ensures Reaches(Step, Init(n, Sem(capacity)), s) && Inv(s)
    ensures s == Init(n, Sem(capacity)).(server := Sem(capacity - k), cl := s.cl) && |s.cl| == n
    ensures forall c :: 0 <= c < n ==> s.cl[c] == if c < k then Critical else Request
    decreases k
  {
    if k == 0 {
      s := Init(n, Sem(capacity));
      ReachesSelf(Step, s);
      InitInv(n, Sem(capacity));
    } else {
      var s1 := CapacityCanBeUsed(n, capacity, k - 1);
      EntersAlone(s1, k - 1);
      s := Inside(s1, k - 1);
      ReachesTrans(Step, Init(n, Sem(capacity)), s1, s);
    }
  }
}
