/** The ring of `anillos.erl`: n processes and the server `srv` in front of them.

    A message sent is first in transit, FIFO per sender and receiver, then in the receiver's mailbox;
    `receive` takes the oldest message of the mailbox that one of its patterns matches and leaves the
    others there.  Which message arrives next is up to the schedule. */
module ErlangRing {
  import opened Runs
  import opened Circle
  import opened Counting
  import opened Mailbox
  import opened RingSum

  datatype Msg =
    | InitMap                       // {init, TheMap}
    | Num(from: nat, value: nat)    // {Pid, Number}
    | Get                           // {srv, get}
    | Kill                          // kill

  datatype Proc = Proc(counter: nat, sum: nat, box: seq<Msg>, alive: bool)

  datatype SrvMsg =
    | AskSum(client: nat, k: nat)       // {From, {get, NroId}}
    | AskClose(client: nat)             // {From, close}
    | Answer(pid: nat, sum: nat)        // {Pid, Sum}

  datatype Server = Ready | Awaiting(client: nat, k: nat) | Stopped

  /** What a client of get_sum received: {srv, Sum}. */
  datatype Reply = Reply(client: nat, sum: nat)

  /** starting[p]: the init message to p is in transit; ring[p]: numbers from p to the next process;
      control[p]: messages from the server to p; closed: the clients sent {srv, ok}. */
  datatype State = State(
    procs: seq<Proc>, starting: seq<bool>, ring: seq<seq<nat>>, control: seq<seq<Msg>>,
    server: Server, srvBox: seq<SrvMsg>, replies: seq<Reply>, closed: seq<nat>)

  datatype Action =
    | DeliverInit(p: nat)
    | DeliverNum(p: nat)
    | DeliverControl(p: nat)
    | Receive(p: nat)
    | Serve
    | Ask(client: nat, k: nat)
    | Close(client: nat)

  /** start_proc(n, n, _): everybody spawned, the init messages on their way. */
  function Init(n: nat): State {
    State(seq(n, p requires 0 <= p => Proc(n, p, [], true)), seq(n, _ => true), seq(n, _ => []), seq(n, _ => []),
          Ready, [], [], [])
  }

  predicate Shaped(s: State) {
    |s.starting| == |s.ring| == |s.control| == |s.procs|
  }

  /** The patterns of the clause of `procs` that a process with this counter is in. */
  predicate Wanted(p: nat, n: nat, counter: nat, m: Msg)
    requires p < n
  {
    if counter == n then m == InitMap
    else if counter == 0 then m == Get || m == Kill
    else m.Num? && m.from == Prev(p, n)
  }

  /** The place of the oldest message that matches; the length of the mailbox when none does. */
  function Match(p: nat, n: nat, counter: nat, box: seq<Msg>): (k: nat)
    requires p < n
    ensures k <= |box| && (k < |box| ==> Wanted(p, n, counter, box[k]))
    ensures forall i :: 0 <= i < k ==> !Wanted(p, n, counter, box[i])
  {
    if box == [] then 0
    else if Wanted(p, n, counter, box[0]) then 0
    else 1 + Match(p, n, counter, box[1..])
  }

  /** Process p handles the message it has selected. */
  function Handle(s: State, p: nat, k: nat): State
    requires Shaped(s) && p < |s.procs| && k < |s.procs[p].box|
  {
    var me := s.procs[p];
    var rest := Without(me.box, k);
    match me.box[k]
    case InitMap =>
      s.(procs := s.procs[p := me.(counter := if me.counter > 0 then me.counter - 1 else 0, box := rest)],
         ring := s.ring[p := s.ring[p] + [p]])
    case Num(_, v) =>
      s.(procs := s.procs[p := me.(counter := if me.counter > 0 then me.counter - 1 else 0, sum := me.sum + v, box := rest)],
         ring := s.ring[p := s.ring[p] + [v]])
    case Get => s.(procs := s.procs[p := me.(box := rest)], srvBox := s.srvBox + [Answer(p, me.sum)])
    case Kill => s.(procs := s.procs[p := me.(box := rest, alive := false)])
  }

  function ReceiveStep(s: State, p: nat): State
    requires Shaped(s) && p < |s.procs|
  {
    var me := s.procs[p];
    var k := Match(p, |s.procs|, me.counter, me.box);
    if me.alive && k < |me.box| then Handle(s, p, k) else s
  }

  predicate SrvWanted(srv: Server, m: SrvMsg) {
    match srv
    case Ready => m.AskSum? || m.AskClose?
    case Awaiting(_, k) => m.Answer? && m.pid == k
    case Stopped => false
  }

  function SrvMatch(srv: Server, box: seq<SrvMsg>): (k: nat)
    ensures k <= |box| && (k < |box| ==> SrvWanted(srv, box[k]))
  {
    if box == [] then 0
    else if SrvWanted(srv, box[0]) then 0
    else 1 + SrvMatch(srv, box[1..])
  }

  /** server(Map): a number outside the map makes maps:get fail and the server ends. */
  function ServeStep(s: State): State
    requires Shaped(s)
  {
    var k := SrvMatch(s.server, s.srvBox);
    if k >= |s.srvBox| then s
    else
      var rest := Without(s.srvBox, k);
      match s.srvBox[k]
      case AskSum(client, q) =>
        if q < |s.procs|
        then s.(srvBox := rest, server := Awaiting(client, q), control := s.control[q := s.control[q] + [Get]])
        else s.(srvBox := rest, server := Stopped)
      case AskClose(client) =>
        s.(srvBox := rest, server := Stopped, closed := s.closed + [client],
           control := seq(|s.control|, p requires 0 <= p < |s.control| => s.control[p] + [Kill]))
      case Answer(_, sum) =>
        if s.server.Awaiting?
        then s.(srvBox := rest, server := Ready, replies := s.replies + [Reply(s.server.client, sum)])
        else s
  }

  function Step(s: State, a: Action): State {
    if !Shaped(s) then s
    else
      match a
      case DeliverInit(p) =>
        if p < |s.procs| && s.starting[p]
        then s.(starting := s.starting[p := false], procs := s.procs[p := s.procs[p].(box := s.procs[p].box + [InitMap])])
        else s
      case DeliverNum(p) =>
        if p < |s.procs| && s.ring[Prev(p, |s.procs|)] != []
        then
          var src := Prev(p, |s.procs|);
          s.(ring := s.ring[src := s.ring[src][1..]],
             procs := s.procs[p := s.procs[p].(box := s.procs[p].box + [Num(src, s.ring[src][0])])])
        else s
      case DeliverControl(p) =>
        if p < |s.procs| && s.control[p] != []
        then
          s.(control := s.control[p := s.control[p][1..]],
             procs := s.procs[p := s.procs[p].(box := s.procs[p].box + [s.control[p][0]])])
        else s
      case Receive(p) => if p < |s.procs| then ReceiveStep(s, p) else s
      case Serve => ServeStep(s)
      case Ask(client, k) => s.(srvBox := s.srvBox + [AskSum(client, k)])
      case Close(client) => s.(srvBox := s.srvBox + [AskClose(client)])
  }

  // ----- the numbers on their way to a process -----

  function Numbers(box: seq<Msg>): seq<nat> {
    if box == [] then []
    else (if box[0].Num? then [box[0].value] else []) + Numbers(box[1..])
  }

  lemma {:induction false} NumbersAppend(box: seq<Msg>, m: Msg)
    ensures Numbers(box + [m]) == Numbers(box) + (if m.Num? then [m.value] else [])
    decreases |box|
  {
    if box == [] {
      assert box + [m] == [m];
    } else {
      var first := if box[0].Num? then [box[0].value] else [];
      var last := if m.Num? then [m.value] else [];
      assert (box + [m])[1..] == box[1..] + [m];
      NumbersAppend(box[1..], m);
      assert first + (Numbers(box[1..]) + last) == (first + Numbers(box[1..])) + last;
    }
  }

  /** Taking another message leaves the numbers as they are; taking the first number takes the head. */
  lemma {:induction false} NumbersWithout(box: seq<Msg>, k: nat)
    requires k < |box|
    requires box[k].Num? ==> forall i :: 0 <= i < k ==> !box[i].Num?
    ensures if box[k].Num? then Numbers(box) == [box[k].value] + Numbers(Without(box, k))
            else Numbers(box) == Numbers(Without(box, k))
    decreases |box|
  {
    if k == 0 {
      assert Without(box, 0) == box[1..];
    } else {
      assert Without(box, k)[0] == box[0];
      assert Without(box, k)[1..] == Without(box[1..], k - 1);
      NumbersWithout(box[1..], k - 1);
    }
  }

  /** Numbers process p has taken, and numbers it has sent. */
  function Received(me: Proc, n: nat): int { if me.counter >= n then 0 else n - 1 - me.counter }

  function Sent(me: Proc, n: nat): int { if me.counter >= n then 0 else n - me.counter }

  /** In the mailbox and behind it, oldest first. */
  function Pending(s: State, p: nat): seq<nat>
    requires Shaped(s) && p < |s.procs|
  {
    Numbers(s.procs[p].box) + s.ring[Prev(p, |s.procs|)]
  }

  predicate InBox(m: Msg, me: Proc) { m in me.box }

  predicate ProcOk(s: State, p: nat)
    requires Shaped(s) && p < |s.procs|
  {
    var n, me := |s.procs|, s.procs[p];
    && me.counter <= n
    && me.sum == Partial(p, Received(me, n), n)
    && (me.counter == n <==> s.starting[p] || InBox(InitMap, me))
    && (s.starting[p] ==> !InBox(InitMap, me))
    && (!me.alive ==> me.counter == 0)
    && (forall i :: 0 <= i < |me.box| && me.box[i].Num? ==> me.box[i].from == Prev(p, n))
    && (forall i, j :: 0 <= i < j < |me.box| && me.box[i] == InitMap ==> me.box[j] != InitMap)
    && (forall i :: 0 <= i < |s.control[p]| ==> s.control[p][i] == Get || s.control[p][i] == Kill)
  }

  /** The messages from number r up to number `sent` of those process src sends. */
  predicate Chain(pending: seq<nat>, src: nat, r: int, sent: int, n: nat)
    requires src < n
  {
    && 0 <= r && sent <= n && r + |pending| == sent
    && forall x :: 0 <= x < |pending| ==> pending[x] == Origin(src, r + x, n)
  }

  lemma ChainTake(pending: seq<nat>, src: nat, r: int, sent: int, n: nat)
    requires src < n && Chain(pending, src, r, sent, n) && pending != []
    ensures Chain(pending[1..], src, r + 1, sent, n)
  {
    assert forall x :: 0 <= x < |pending| - 1 ==> pending[1..][x] == pending[x + 1];
  }

  lemma ChainPut(pending: seq<nat>, src: nat, r: int, sent: int, n: nat, v: nat)
    requires src < n && Chain(pending, src, r, sent, n) && sent < n && v == Origin(src, sent, n)
    ensures Chain(pending + [v], src, r, sent + 1, n)
  {
  }

  /** The last message of the process before p is p's own number. */
  lemma ChainLast(pending: seq<nat>, p: nat, n: nat)
    requires p < n && Chain(pending, Prev(p, n), n - 1, n, n)
    ensures pending == [p]
  {
    OneHop(Prev(p, n), n - 1, n);
    assert pending[0] == Origin(Prev(p, n), n - 1 + 0, n);
  }

  /** What is pending for p are exactly the messages between its neighbour's sends and its receives. */
  predicate PendingOk(s: State, p: nat)
    requires Shaped(s) && p < |s.procs|
  {
    var n := |s.procs|;
    var src := Prev(p, n);
    Chain(Pending(s, p), src, Received(s.procs[p], n), Sent(s.procs[src], n), n)
  }

  predicate ServerOk(s: State) {
    && (forall i :: 0 <= i < |s.srvBox| && s.srvBox[i].Answer? ==> s.srvBox[i].sum == Gauss(|s.procs|))
    && (forall i :: 0 <= i < |s.replies| ==> s.replies[i].sum == Gauss(|s.procs|))
  }

  ghost predicate Inv(s: State) {
    && Shaped(s) && ServerOk(s)
    && (forall p :: 0 <= p < |s.procs| ==> ProcOk(s, p))
    && (forall p :: 0 <= p < |s.procs| ==> PendingOk(s, p))
  }

  // ----- the invariant is kept -----

  /** Messages that arrive, or are taken without being numbers, leave what is pending as it is. */
  lemma PendingFrame(s: State, s': State, q: nat)
    requires Shaped(s) && Shaped(s') && |s'.procs| == |s.procs| && q < |s.procs| && PendingOk(s, q)
    requires Pending(s', q) == Pending(s, q)
    requires s'.procs[q].counter == s.procs[q].counter
    requires s'.procs[Prev(q, |s.procs|)].counter == s.procs[Prev(q, |s.procs|)].counter
    ensures PendingOk(s', q)
  {
  }

  lemma ArrivalKeepsProc(s: State, s': State, p: nat, m: Msg)
    requires Shaped(s) && Shaped(s') && |s'.procs| == |s.procs| && p < |s.procs| && ProcOk(s, p)
    requires s'.procs[p] == s.procs[p].(box := s.procs[p].box + [m])
    requires s'.starting[p] == (s.starting[p] && m != InitMap) && (m == InitMap ==> s.starting[p])
    requires m.Num? ==> m.from == Prev(p, |s.procs|)
    requires forall i :: 0 <= i < |s'.control[p]| ==> s'.control[p][i] == Get || s'.control[p][i] == Kill
    ensures ProcOk(s', p)
  {
    var box := s.procs[p].box;
    assert forall i :: 0 <= i < |box| ==> s'.procs[p].box[i] == box[i];
    assert s'.procs[p].box[|box|] == m;
  }

  lemma DeliverInitKeepsInv(s: State, p: nat)
    requires Inv(s) && p < |s.procs| && s.starting[p]
    ensures Inv(Step(s, DeliverInit(p)))
  {
    var s' := Step(s, DeliverInit(p));
    ArrivalKeepsProc(s, s', p, InitMap);
    NumbersAppend(s.procs[p].box, InitMap);
    forall q | 0 <= q < |s.procs| ensures ProcOk(s', q) && PendingOk(s', q) {
      assert ProcOk(s, q) && PendingOk(s, q);
      assert Pending(s', q) == Pending(s, q);
      PendingFrame(s, s', q);
    }
  }

  lemma DeliverNumKeepsInv(s: State, p: nat)
    requires Inv(s) && p < |s.procs| && s.ring[Prev(p, |s.procs|)] != []
    ensures Inv(Step(s, DeliverNum(p)))
  {
    var s', n := Step(s, DeliverNum(p)), |s.procs|;
    var src := Prev(p, n);
    var m := Num(src, s.ring[src][0]);
    assert ProcOk(s, p);
    ArrivalKeepsProc(s, s', p, m);
    NumbersAppend(s.procs[p].box, m);
    forall q | 0 <= q < n ensures ProcOk(s', q) && PendingOk(s', q) {
      assert ProcOk(s, q) && PendingOk(s, q);
      assert Prev(q, n) == src ==> q == p;
      if q == p {
        assert s.ring[src] == [s.ring[src][0]] + s.ring[src][1..];
      }
      assert Pending(s', q) == Pending(s, q);
      PendingFrame(s, s', q);
    }
  }

  lemma DeliverControlKeepsInv(s: State, p: nat)
    requires Inv(s) && p < |s.procs| && s.control[p] != []
    ensures Inv(Step(s, DeliverControl(p)))
  {
    var s' := Step(s, DeliverControl(p));
    var m := s.control[p][0];
    assert ProcOk(s, p);
    ArrivalKeepsProc(s, s', p, m);
    NumbersAppend(s.procs[p].box, m);
    forall q | 0 <= q < |s.procs| ensures ProcOk(s', q) && PendingOk(s', q) {
      assert ProcOk(s, q) && PendingOk(s, q);
      assert Pending(s', q) == Pending(s, q);
      PendingFrame(s, s', q);
    }
  }

  /** What taking message k out of the mailbox leaves true of the mailbox. */
  lemma TakenKeepsBox(s: State, p: nat, k: nat)
    requires Shaped(s) && p < |s.procs| && ProcOk(s, p) && k < |s.procs[p].box|
    ensures var box, rest := s.procs[p].box, Without(s.procs[p].box, k);
      && (forall i :: 0 <= i < |rest| && rest[i].Num? ==> rest[i].from == Prev(p, |s.procs|))
      && (forall i, j :: 0 <= i < j < |rest| && rest[i] == InitMap ==> rest[j] != InitMap)
      && (box[k] == InitMap ==> InitMap !in rest)
      && (box[k] != InitMap ==> (InitMap in rest <==> InitMap in box))
  {
    var box, rest := s.procs[p].box, Without(s.procs[p].box, k);
    assert forall i :: 0 <= i < |rest| ==> rest[i] == if i < k then box[i] else box[i + 1];
    if box[k] != InitMap && InitMap in box {
      var j :| 0 <= j < |box| && box[j] == InitMap;
      assert rest[if j < k then j else j - 1] == InitMap;
    }
  }

  /** A process that sends one more number, and takes one first unless it has just been started. */
  lemma SendKeepsInv(s: State, p: nat, k: nat)
    requires Inv(s) && p < |s.procs|
    requires k == Match(p, |s.procs|, s.procs[p].counter, s.procs[p].box) < |s.procs[p].box|
    requires s.procs[p].counter > 0
    ensures Inv(Handle(s, p, k))
  {
    var n, me := |s.procs|, s.procs[p];
    var s', m := Handle(s, p, k), me.box[k];
    var src, r := Prev(p, n), Received(me, n);
    var v := if m.Num? then m.value else p;
    assert ProcOk(s, p) && PendingOk(s, p) && PendingOk(s, Next(p, n));
    assert s'.ring == s.ring[p := s.ring[p] + [v]];
    TakenKeepsBox(s, p, k);
    NumbersWithout(me.box, k);
    if m.Num? {
      assert Pending(s, p)[0] == v == Origin(src, r + 0, n);
      OneHop(src, r, n);
      assert Partial(p, r + 1, n) == v + Partial(p, r, n);
    }
    assert v == Origin(p, Sent(me, n), n);
    assert ProcOk(s', p);
    forall q | 0 <= q < n ensures ProcOk(s', q) && PendingOk(s', q) {
      assert ProcOk(s, q) && PendingOk(s, q);
      SendKeepsPending(s, p, k, q);
    }
  }

  lemma ChainMoves(pending: seq<nat>, after: seq<nat>, src: nat, r: int, sent: int, n: nat, v: nat, take: bool, put: bool)
    requires src < n && Chain(pending, src, r, sent, n)
    requires (take ==> pending != []) && (put ==> sent < n && v == Origin(src, sent, n))
    requires after == (if take then pending[1..] else pending) + (if put then [v] else [])
    ensures Chain(after, src, r + B(take), sent + B(put), n)
  {
    var rest := if take then pending[1..] else pending;
    if take {
      ChainTake(pending, src, r, sent, n);
    }
    if put {
      ChainPut(rest, src, r + B(take), sent, n, v);
    } else {
      assert rest + [] == rest;
    }
  }

  /** What process p sends on, and whether that message has been taken from the numbers pending for q. */
  function Sends(s: State, p: nat, k: nat): nat
    requires p < |s.procs| && k < |s.procs[p].box|
  {
    if s.procs[p].box[k].Num? then s.procs[p].box[k].value else p
  }

  predicate TakesFor(s: State, p: nat, k: nat, q: nat)
    requires p < |s.procs| && k < |s.procs[p].box|
  {
    q == p && s.procs[p].box[k].Num?
  }

  predicate Sending(s: State, p: nat, k: nat)
    requires p < |s.procs| && k < |s.procs[p].box|
  {
    && 0 < s.procs[p].counter <= |s.procs|
    && (if s.procs[p].counter == |s.procs| then s.procs[p].box[k].InitMap? else s.procs[p].box[k].Num?)
    && (s.procs[p].box[k].Num? ==> forall i :: 0 <= i < k ==> !s.procs[p].box[i].Num?)
  }

  lemma SendCounters(s: State, p: nat, k: nat, q: nat)
    requires Shaped(s) && p < |s.procs| && q < |s.procs| && k < |s.procs[p].box| && Sending(s, p, k)
    ensures var s', n := Handle(s, p, k), |s.procs|;
      && Shaped(s') && |s'.procs| == n
      && Received(s'.procs[q], n) == Received(s.procs[q], n) + B(TakesFor(s, p, k, q))
      && Sent(s'.procs[q], n) == Sent(s.procs[q], n) + B(q == p)
  {
  }

  lemma SendPending(s: State, p: nat, k: nat, q: nat)
    requires Shaped(s) && p < |s.procs| && q < |s.procs| && k < |s.procs[p].box| && Sending(s, p, k)
    ensures var s', pending := Handle(s, p, k), Pending(s, q);
      && Shaped(s') && |s'.procs| == |s.procs|
      && (TakesFor(s, p, k, q) ==> pending != [])
      && Pending(s', q) == (if TakesFor(s, p, k, q) then pending[1..] else pending)
                           + (if Prev(q, |s.procs|) == p then [Sends(s, p, k)] else [])
  {
    var box, src, s' := s.procs[p].box, Prev(q, |s.procs|), Handle(s, p, k);
    NumbersWithout(box, k);
    var before, after := Numbers(s.procs[q].box), Numbers(s'.procs[q].box);
    var more := if src == p then [Sends(s, p, k)] else [];
    assert s'.ring[src] == s.ring[src] + more;
    assert TakesFor(s, p, k, q) ==> before == [box[k].value] + after;
    assert after + (s.ring[src] + more) == after + s.ring[src] + more;
  }

  /** Between any two states that differ like that, what is pending for q stays in order. */
  lemma PendingMoves(s: State, s': State, p: nat, q: nat, v: nat, take: bool)
    requires Shaped(s) && Shaped(s') && |s'.procs| == |s.procs| && p < |s.procs| && q < |s.procs| && PendingOk(s, q)
    requires var n, src := |s.procs|, Prev(q, |s.procs|);
      && Received(s'.procs[q], n) == Received(s.procs[q], n) + B(take)
      && Sent(s'.procs[src], n) == Sent(s.procs[src], n) + B(src == p)
      && (take ==> Pending(s, q) != [])
      && Pending(s', q) == (if take then Pending(s, q)[1..] else Pending(s, q)) + (if src == p then [v] else [])
    requires Sent(s.procs[p], |s.procs|) < |s.procs| && v == Origin(p, Sent(s.procs[p], |s.procs|), |s.procs|)
    ensures PendingOk(s', q)
  {
    var n, src := |s.procs|, Prev(q, |s.procs|);
    ChainMoves(Pending(s, q), Pending(s', q), src, Received(s.procs[q], n), Sent(s.procs[src], n), n, v, take, src == p);
  }

  lemma SendKeepsPending(s: State, p: nat, k: nat, q: nat)
    requires Shaped(s) && p < |s.procs| && q < |s.procs| && k < |s.procs[p].box| && Sending(s, p, k)
    requires PendingOk(s, q) && Sends(s, p, k) == Origin(p, Sent(s.procs[p], |s.procs|), |s.procs|)
    ensures Shaped(Handle(s, p, k)) && |Handle(s, p, k).procs| == |s.procs| && PendingOk(Handle(s, p, k), q)
  {
    SendCounters(s, p, k, q);
    SendCounters(s, p, k, Prev(q, |s.procs|));
    SendPending(s, p, k, q);
    PendingMoves(s, Handle(s, p, k), p, q, Sends(s, p, k), TakesFor(s, p, k, q));
  }

  lemma ReplyKeepsProc(s: State, p: nat, k: nat)
    requires Shaped(s) && p < |s.procs| && ProcOk(s, p)
    requires k == Match(p, |s.procs|, s.procs[p].counter, s.procs[p].box) < |s.procs[p].box|
    requires s.procs[p].counter == 0
    ensures Shaped(Handle(s, p, k)) && ProcOk(Handle(s, p, k), p)
    ensures Handle(s, p, k).procs[p].sum == Gauss(|s.procs|)
  {
    FullSum(p, |s.procs|);
    TakenKeepsBox(s, p, k);
  }

  lemma ReplyKeepsInv(s: State, p: nat, k: nat)
    requires Inv(s) && p < |s.procs|
    requires k == Match(p, |s.procs|, s.procs[p].counter, s.procs[p].box) < |s.procs[p].box|
    requires s.procs[p].counter == 0
    ensures Inv(Handle(s, p, k))
  {
    var n, s' := |s.procs|, Handle(s, p, k);
    assert ProcOk(s, p);
    ReplyKeepsProc(s, p, k);
    NumbersWithout(s.procs[p].box, k);
    assert s'.ring == s.ring && s'.starting == s.starting && s'.control == s.control;
    forall q | 0 <= q < n ensures ProcOk(s', q) && PendingOk(s', q) {
      assert ProcOk(s, q) && PendingOk(s, q);
      PendingFrame(s, s', q);
    }
  }

  lemma ServeKeepsInv(s: State)
    requires Inv(s)
    ensures Inv(ServeStep(s))
  {
    var s' := ServeStep(s);
    assert s'.procs == s.procs && s'.ring == s.ring && s'.starting == s.starting && |s'.control| == |s.control|;
    forall q | 0 <= q < |s.procs| ensures ProcOk(s', q) && PendingOk(s', q) {
      assert ProcOk(s, q) && PendingOk(s, q);
      assert s'.control[q] == s.control[q] || s'.control[q] == s.control[q] + [Get] || s'.control[q] == s.control[q] + [Kill];
    }
  }

  lemma StepKeepsInv(s: State, a: Action)
    requires Inv(s)
    ensures Inv(Step(s, a)) && |Step(s, a).procs| == |s.procs|
  {
    match a
    case DeliverInit(p) => if p < |s.procs| && s.starting[p] { DeliverInitKeepsInv(s, p); }
    case DeliverNum(p) => if p < |s.procs| && s.ring[Prev(p, |s.procs|)] != [] { DeliverNumKeepsInv(s, p); }
    case DeliverControl(p) => if p < |s.procs| && s.control[p] != [] { DeliverControlKeepsInv(s, p); }
    case Receive(p) =>
      if p < |s.procs| {
        var k := Match(p, |s.procs|, s.procs[p].counter, s.procs[p].box);
        if k < |s.procs[p].box| {
          if s.procs[p].counter > 0 { SendKeepsInv(s, p, k); } else { ReplyKeepsInv(s, p, k); }
        }
      }
    case Serve => ServeKeepsInv(s);
    case Ask(client, k) => OnlyRequests(s, AskSum(client, k));
    case Close(client) => OnlyRequests(s, AskClose(client));
  }

  lemma OnlyRequests(s: State, m: SrvMsg)
    requires Inv(s) && !m.Answer?
    ensures Inv(s.(srvBox := s.srvBox + [m]))
  {
    var s' := s.(srvBox := s.srvBox + [m]);
    forall q | 0 <= q < |s.procs| ensures ProcOk(s', q) && PendingOk(s', q) {
      assert ProcOk(s, q) && PendingOk(s, q);
      PendingFrame(s, s', q);
    }
  }

  lemma InitInv(n: nat)
    ensures Inv(Init(n))
  {
    var s := Init(n);
    forall p | 0 <= p < n ensures ProcOk(s, p) && PendingOk(s, p) {
      assert Pending(s, p) == [];
    }
  }

  lemma ReachableInv(n: nat, schedule: seq<Action>)
    ensures Inv(Exec(Step, Init(n), schedule)) && |Exec(Step, Init(n), schedule).procs| == n
  {
    InitInv(n);
    forall s: State, a: Action | Inv(s) && |s.procs| == n ensures Inv(Step(s, a)) && |Step(s, a).procs| == n {
      StepKeepsInv(s, a);
    }
    InvariantHolds(Step, (s: State) => Inv(s) && |s.procs| == n, Init(n), schedule);
  }

  // ----- only full sums leave the ring -----

  /** Whatever the order of delivery, get_sum returns n (n - 1) / 2 and nothing else, and a process that
      has been killed had its full sum. */
  lemma OnlyFullSums(n: nat, schedule: seq<Action>)
    ensures var s := Exec(Step, Init(n), schedule);
      && (forall i :: 0 <= i < |s.replies| ==> 2 * s.replies[i].sum == n * (n - 1))
      && (forall p :: 0 <= p < |s.procs| && !s.procs[p].alive ==> 2 * s.procs[p].sum == n * (n - 1))
  {
    ReachableInv(n, schedule);
    GaussClosed(n);
    var s := Exec(Step, Init(n), schedule);
    forall p | 0 <= p < |s.procs| && !s.procs[p].alive ensures s.procs[p].sum == Gauss(n) {
      assert ProcOk(s, p);
      FullSum(p, n);
    }
  }

  predicate AllSummed(s: State) { forall p :: 0 <= p < |s.procs| ==> s.procs[p].counter == 0 }

  /** When all counters are 0 every process has the full sum, and the only number left unread at each
      process, in its mailbox or on the way to it, is its own, come round the ring. */
  lemma SumsAndLeftovers(n: nat, schedule: seq<Action>, p: nat)
    requires p < n && AllSummed(Exec(Step, Init(n), schedule))
    ensures var s := Exec(Step, Init(n), schedule);
            Shaped(s) && |s.procs| == n && 2 * s.procs[p].sum == n * (n - 1) && Pending(s, p) == [p]
  {
    ReachableInv(n, schedule);
    var s := Exec(Step, Init(n), schedule);
    assert ProcOk(s, p) && PendingOk(s, p);
    FullSum(p, n);
    GaussClosed(n);
    ChainLast(Pending(s, p), p, n);
  }

  // ----- the ring never gets stuck -----

  /** Receives process p still has to do, and messages it has in transit. */
  function WorkAt(s: State, p: nat): nat
    requires Shaped(s) && p < |s.procs|
  {
    2 * s.procs[p].counter + |s.ring[p]| + if s.starting[p] then 1 else 0
  }

  function AllWork(s: State): seq<nat>
    requires Shaped(s)
  {
    seq(|s.procs|, p requires 0 <= p < |s.procs| => WorkAt(s, p))
  }

  function WorkLeft(s: State): nat
    requires Shaped(s)
  {
    Sum(AllWork(s))
  }

  lemma WorkAtOne(s: State, s': State, p: nat)
    requires Shaped(s) && Shaped(s') && |s.procs| == |s'.procs| && p < |s.procs|
    requires forall q :: 0 <= q < |s.procs| && q != p ==> WorkAt(s', q) == WorkAt(s, q)
    ensures WorkLeft(s') == WorkLeft(s) - WorkAt(s, p) + WorkAt(s', p)
  {
    assert AllWork(s') == AllWork(s)[p := WorkAt(s', p)];
    SumUpdate(AllWork(s), p, WorkAt(s', p));
  }

  predicate RingAction(a: Action) { a.DeliverInit? || a.DeliverNum? || a.Receive? }

  /** A ring action that happens leaves one message or one receive less; no action adds any. */
  lemma WorkDecreases(s: State, a: Action)
    requires Inv(s)
    ensures Shaped(Step(s, a)) && WorkLeft(Step(s, a)) <= WorkLeft(s)
    ensures (a.DeliverInit? || a.DeliverNum?) && Step(s, a) != s ==> WorkLeft(Step(s, a)) < WorkLeft(s)
    ensures a.Receive? && a.p < |s.procs| && s.procs[a.p].counter > 0 && Step(s, a) != s ==>
              WorkLeft(Step(s, a)) < WorkLeft(s)
  {
    var s' := Step(s, a);
    if s' != s {
      match a
      case DeliverInit(p) => WorkAtOne(s, s', p);
      case DeliverNum(p) => WorkAtOne(s, s', Prev(p, |s.procs|));
      case Receive(p) => ReceiveWork(s, p);
      case _ => OtherWork(s, a);
    }
  }

  lemma ReceiveWork(s: State, p: nat)
    requires Inv(s) && p < |s.procs|
    ensures Shaped(ReceiveStep(s, p)) && WorkLeft(ReceiveStep(s, p)) <= WorkLeft(s)
    ensures s.procs[p].counter > 0 && ReceiveStep(s, p) != s ==> WorkLeft(ReceiveStep(s, p)) < WorkLeft(s)
  {
    var s' := ReceiveStep(s, p);
    if s' != s {
      assert ProcOk(s, p);
      WorkAtOne(s, s', p);
    }
  }

  lemma OtherWork(s: State, a: Action)
    requires Shaped(s) && !RingAction(a)
    ensures Shaped(Step(s, a)) && WorkLeft(Step(s, a)) == WorkLeft(s)
  {
    assert AllWork(Step(s, a)) == AllWork(s);
  }

  lemma {:induction false} NumberInBox(box: seq<Msg>) returns (i: nat)
    requires Numbers(box) != []
    ensures i < |box| && box[i].Num?
    decreases |box|
  {
    if box[0].Num? {
      i := 0;
    } else {
      i := NumberInBox(box[1..]);
      i := i + 1;
    }
  }

  function Advanced(me: Proc, n: nat): nat { if me.counter <= n then n - me.counter else 0 }

  /** While some counter is not 0 a message can arrive or a process can receive. */
  lemma NeverStuck(s: State) returns (a: Action)
    requires Inv(s) && !AllSummed(s)
    ensures RingAction(a) && WorkLeft(Step(s, a)) < WorkLeft(s) && Shaped(Step(s, a))
  {
    var n := |s.procs|;
    if p: nat :| p < n && s.starting[p] {
      a := DeliverInit(p);
    } else if p: nat :| p < n && s.ring[p] != [] {
      a := DeliverNum(Next(p, n));
      assert Prev(Next(p, n), n) == p;
    } else {
      var received := seq(n, q requires 0 <= q < n => Advanced(s.procs[q], n));
      var p := Smallest(received);
      var q :| 0 <= q < n && s.procs[q].counter != 0;
      assert received[p] <= received[q];
      a := Receive(p);
      assert ProcOk(s, p) && PendingOk(s, p) && ProcOk(s, q) && ProcOk(s, Prev(p, n));
      var me := s.procs[p];
      if me.counter < n {
        assert received[p] <= received[Prev(p, n)];
        assert Numbers(me.box) == Pending(s, p);
        var i := NumberInBox(me.box);
        assert Wanted(p, n, me.counter, me.box[i]);
      } else {
        assert InitMap in me.box;
      }
      assert Step(s, a).procs[p].counter < me.counter;
    }
    WorkDecreases(s, a);
  }

  /** From every reachable state the ring alone can finish all the sums; server, replies and the
      messages to and from the server stay as they are. */
  lemma {:induction false} RingFinishes(s: State) returns (s': State)
    requires Inv(s)
    ensures Reaches(Step, s, s') && Inv(s') && AllSummed(s') && |s'.procs| == |s.procs|
    ensures Awaits(s) ==> Awaits(s') && s'.server == s.server && s'.replies == s.replies
    ensures Awaits(s) ==> Requests(s'.srvBox) == Requests(s.srvBox)
    decreases WorkLeft(s)
  {
    if AllSummed(s) {
      s' := s;
      ReachesSelf(Step, s);
    } else {
      var a := NeverStuck(s);
      StepKeepsInv(s, a);
      if Awaits(s) {
        RingKeepsAwaits(s, a);
      }
      s' := RingFinishes(Step(s, a));
      ReachesStepFirst(Step, s, a, s');
    }
  }

  // ----- a request is answered -----

  predicate NoKill(s: State)
    requires Shaped(s)
  {
    forall p :: 0 <= p < |s.procs| ==> s.procs[p].alive && Kill !in s.procs[p].box && Kill !in s.control[p]
  }

  predicate AnswerIn(box: seq<SrvMsg>, k: nat) {
    exists i :: 0 <= i < |box| && box[i].Answer? && box[i].pid == k
  }

  /** What clients have asked and the server has not taken, oldest first. */
  function Requests(box: seq<SrvMsg>): seq<SrvMsg> {
    if box == [] then [] else (if box[0].Answer? then [] else [box[0]]) + Requests(box[1..])
  }

  lemma {:induction false} RequestsAppend(box: seq<SrvMsg>, m: SrvMsg)
    ensures Requests(box + [m]) == Requests(box) + (if m.Answer? then [] else [m])
    decreases |box|
  {
    if box == [] {
      assert box + [m] == [m];
    } else {
      var first := if box[0].Answer? then [] else [box[0]];
      var last := if m.Answer? then [] else [m];
      assert (box + [m])[1..] == box[1..] + [m];
      RequestsAppend(box[1..], m);
      assert first + (Requests(box[1..]) + last) == (first + Requests(box[1..])) + last;
    }
  }

  /** Taking an answer leaves the requests as they are; taking the first request takes the head. */
  lemma {:induction false} RequestsWithout(box: seq<SrvMsg>, k: nat)
    requires k < |box|
    requires !box[k].Answer? ==> forall i :: 0 <= i < k ==> box[i].Answer?
    ensures if box[k].Answer? then Requests(box) == Requests(Without(box, k))
            else Requests(box) == [box[k]] + Requests(Without(box, k))
    decreases |box|
  {
    if k == 0 {
      assert Without(box, 0) == box[1..];
    } else {
      assert Without(box, k)[0] == box[0];
      assert Without(box, k)[1..] == Without(box[1..], k - 1);
      RequestsWithout(box[1..], k - 1);
    }
  }

  /** The server waits for process k: the request is on its way, in k's mailbox, or answered. */
  predicate Awaits(s: State) {
    && Shaped(s) && s.server.Awaiting? && s.server.k < |s.procs| && NoKill(s)
    && (Get in s.control[s.server.k] || Get in s.procs[s.server.k].box || AnswerIn(s.srvBox, s.server.k))
  }

  /** Unless the server has stopped there is no kill, and while it waits there is something to wait for. */
  ghost predicate ServerLive(s: State) {
    Shaped(s) && (s.server != Stopped ==> NoKill(s)) && (s.server.Awaiting? ==> Awaits(s))
  }

  lemma InAppended<T>(box: seq<T>, m: T)
    ensures forall x :: x in box + [m] <==> x in box || x == m
  {
  }

  lemma InWithout<T>(box: seq<T>, k: nat)
    requires k < |box|
    ensures forall x :: x in Without(box, k) ==> x in box
    ensures forall x :: x in box && x != box[k] ==> x in Without(box, k)
  {
    var rest := Without(box, k);
    assert forall i :: 0 <= i < |rest| ==> rest[i] == if i < k then box[i] else box[i + 1];
    forall x | x in box && x != box[k] ensures x in rest {
      var j :| 0 <= j < |box| && box[j] == x;
      assert rest[if j < k then j else j - 1] == x;
    }
  }

  lemma AnswerAppended(box: seq<SrvMsg>, m: SrvMsg, k: nat)
    ensures AnswerIn(box, k) ==> AnswerIn(box + [m], k)
    ensures m.Answer? && m.pid == k ==> AnswerIn(box + [m], k)
  {
    assert (box + [m])[|box|] == m;
    if AnswerIn(box, k) {
      var i :| 0 <= i < |box| && box[i].Answer? && box[i].pid == k;
      assert (box + [m])[i] == box[i];
    }
  }

  lemma ReceiveKeepsLive(s: State, p: nat)
    requires Inv(s) && ServerLive(s) && p < |s.procs|
    ensures ServerLive(ReceiveStep(s, p))
  {
    var me := s.procs[p];
    var k := Match(p, |s.procs|, me.counter, me.box);
    if me.alive && k < |me.box| {
      InWithout(me.box, k);
      if s.server.Awaiting? {
        AnswerAppended(s.srvBox, Answer(p, me.sum), s.server.k);
      }
    }
  }

  lemma DeliveryKeepsLive(s: State, a: Action)
    requires Inv(s) && ServerLive(s) && (a.DeliverInit? || a.DeliverNum? || a.DeliverControl?)
    ensures ServerLive(Step(s, a))
  {
    if a.p < |s.procs| {
      var box := s.procs[a.p].box;
      InAppended(box, InitMap);
      if s.ring[Prev(a.p, |s.procs|)] != [] {
        InAppended(box, Num(Prev(a.p, |s.procs|), s.ring[Prev(a.p, |s.procs|)][0]));
      }
      if s.control[a.p] != [] {
        InAppended(box, s.control[a.p][0]);
        assert s.control[a.p] == [s.control[a.p][0]] + s.control[a.p][1..];
      }
    }
  }

  lemma RequestKeepsLive(s: State, m: SrvMsg)
    requires ServerLive(s)
    ensures ServerLive(s.(srvBox := s.srvBox + [m]))
  {
    if s.server.Awaiting? {
      AnswerAppended(s.srvBox, m, s.server.k);
    }
  }

  lemma ServeKeepsLive(s: State)
    requires Inv(s) && ServerLive(s)
    ensures ServerLive(ServeStep(s))
  {
    var k := SrvMatch(s.server, s.srvBox);
    if k < |s.srvBox| && s.srvBox[k].AskSum? && s.srvBox[k].k < |s.procs| {
      InAppended(s.control[s.srvBox[k].k], Get);
    }
  }

  lemma StepKeepsLive(s: State, a: Action)
    requires Inv(s) && ServerLive(s)
    ensures ServerLive(Step(s, a))
  {
    match a
    case Receive(p) => if p < |s.procs| { ReceiveKeepsLive(s, p); }
    case Serve => ServeKeepsLive(s);
    case Ask(client, k) => RequestKeepsLive(s, AskSum(client, k));
    case Close(client) => RequestKeepsLive(s, AskClose(client));
    case _ => DeliveryKeepsLive(s, a);
  }

  lemma RingKeepsAwaits(s: State, a: Action)
    requires Inv(s) && Awaits(s) && (RingAction(a) || a.DeliverControl?)
    ensures Awaits(Step(s, a)) && Step(s, a).server == s.server && Step(s, a).replies == s.replies
    ensures Requests(Step(s, a).srvBox) == Requests(s.srvBox)
  {
    StepKeepsLive(s, a);
    if a.Receive? && a.p < |s.procs| {
      RequestsAppend(s.srvBox, Answer(a.p, s.procs[a.p].sum));
    }
  }

  lemma {:induction false} SrvMatchFinds(srv: Server, box: seq<SrvMsg>, i: nat)
    requires i < |box| && SrvWanted(srv, box[i])
    ensures SrvMatch(srv, box) <= i
    decreases |box|
  {
    if !SrvWanted(srv, box[0]) {
      SrvMatchFinds(srv, box[1..], i - 1);
    }
  }

  /** With the sums done, the request travels to the process and the answer back. */
  lemma {:induction false} AnswerArrives(s: State) returns (s': State)
    requires Inv(s) && Awaits(s) && AllSummed(s)
    ensures Reaches(Step, s, s') && s'.replies == s.replies + [Reply(s.server.client, Gauss(|s.procs|))]
    ensures Inv(s') && ServerLive(s') && s'.server == Ready && |s'.procs| == |s.procs|
    ensures Requests(s'.srvBox) == Requests(s.srvBox)
    decreases !AnswerIn(s.srvBox, s.server.k), !(Get in s.procs[s.server.k].box), |s.control[s.server.k]|
  {
    var k := s.server.k;
    if AnswerIn(s.srvBox, k) {
      var i :| 0 <= i < |s.srvBox| && s.srvBox[i].Answer? && s.srvBox[i].pid == k;
      SrvMatchFinds(s.server, s.srvBox, i);
      ReachesSelf(Step, s);
      ReachesStep(Step, s, s, Serve);
      s' := Step(s, Serve);
      StepKeepsInv(s, Serve);
      StepKeepsLive(s, Serve);
      RequestsWithout(s.srvBox, SrvMatch(s.server, s.srvBox));
    } else {
      var a := if Get in s.procs[k].box then Receive(k) else DeliverControl(k);
      RingKeepsAwaits(s, a);
      StepKeepsInv(s, a);
      var s1 := Step(s, a);
      if a.Receive? {
        var m := Match(k, |s.procs|, s.procs[k].counter, s.procs[k].box);
        assert s.procs[k].box[m] == Get;
        AnswerAppended(s.srvBox, Answer(k, s.procs[k].sum), k);
      }
      s' := AnswerArrives(s1);
      ReachesStepFirst(Step, s, a, s');
    }
  }

  lemma ReachableLive(n: nat, schedule: seq<Action>)
    ensures ServerLive(Exec(Step, Init(n), schedule))
  {
    InitInv(n);
    forall s: State, a: Action | Inv(s) && ServerLive(s) ensures Inv(Step(s, a)) && ServerLive(Step(s, a)) {
      StepKeepsInv(s, a);
      StepKeepsLive(s, a);
    }
    InvariantHolds(Step, (s: State) => Inv(s) && ServerLive(s), Init(n), schedule);
  }

  /** The request the server has taken up is answered next. */
  lemma TakenIsAnswered(s: State) returns (s': State)
    requires Inv(s) && ServerLive(s) && s.server.Awaiting?
    ensures Reaches(Step, s, s') && s'.replies == s.replies + [Reply(s.server.client, Gauss(|s.procs|))]
    ensures Inv(s') && ServerLive(s') && s'.server == Ready && |s'.procs| == |s.procs|
    ensures Requests(s'.srvBox) == Requests(s.srvBox)
  {
    var s1 := RingFinishes(s);
    s' := AnswerArrives(s1);
    ReachesTrans(Step, s, s1, s');
  }

  /** Whenever the server has taken up a request, early or late, the run can be continued until the
      client that asked has the full sum. */
  lemma GetSumIsAnswered(n: nat, schedule: seq<Action>) returns (s': State)
    requires Exec(Step, Init(n), schedule).server.Awaiting?
    ensures var s := Exec(Step, Init(n), schedule);
      && Reaches(Step, s, s') && |s'.replies| == |s.replies| + 1 && s.replies <= s'.replies
      && s'.replies[|s.replies|].client == s.server.client && 2 * s'.replies[|s.replies|].sum == n * (n - 1)
  {
    ReachableInv(n, schedule);
    ReachableLive(n, schedule);
    s' := TakenIsAnswered(Exec(Step, Init(n), schedule));
    GaussClosed(n);
  }

  /** No close is ahead of request i, nor a request for a process that does not exist. */
  predicate Answerable(requests: seq<SrvMsg>, i: nat, n: nat) {
    i < |requests| && forall j :: 0 <= j <= i ==> requests[j].AskSum? && requests[j].k < n
  }

  /** An idle server takes the oldest request. */
  lemma OldestIsTaken(s: State)
    requires Inv(s) && ServerLive(s) && s.server == Ready && Answerable(Requests(s.srvBox), 0, |s.procs|)
    ensures var s', m := Step(s, Serve), Requests(s.srvBox)[0];
      && Inv(s') && ServerLive(s') && |s'.procs| == |s.procs| && s'.replies == s.replies
      && s'.server == Awaiting(m.client, m.k) && Requests(s'.srvBox) == Requests(s.srvBox)[1..]
  {
    var k := SrvMatch(Ready, s.srvBox);
    OnlyAnswersAhead(s.srvBox);
    RequestsWithout(s.srvBox, k);
    StepKeepsInv(s, Serve);
    StepKeepsLive(s, Serve);
  }

  lemma {:induction false} OnlyAnswersAhead(box: seq<SrvMsg>)
    requires Requests(box) != []
    ensures SrvMatch(Ready, box) < |box| && forall i :: 0 <= i < SrvMatch(Ready, box) ==> box[i].Answer?
    decreases |box|
  {
    if box[0].Answer? {
      OnlyAnswersAhead(box[1..]);
    }
  }

  /** ... and answers it. */
  lemma OldestIsAnswered(s: State) returns (s': State)
    requires Inv(s) && ServerLive(s) && s.server == Ready && Answerable(Requests(s.srvBox), 0, |s.procs|)
    ensures Reaches(Step, s, s') && s'.replies == s.replies + [Reply(Requests(s.srvBox)[0].client, Gauss(|s.procs|))]
    ensures Inv(s') && ServerLive(s') && s'.server == Ready && |s'.procs| == |s.procs|
    ensures Requests(s'.srvBox) == Requests(s.srvBox)[1..]
  {
    OldestIsTaken(s);
    ReachesSelf(Step, s);
    ReachesStep(Step, s, s, Serve);
    s' := TakenIsAnswered(Step(s, Serve));
    ReachesTrans(Step, s, Step(s, Serve), s');
  }

  lemma AnswerableTail(requests: seq<SrvMsg>, i: nat, n: nat)
    requires Answerable(requests, i, n) && i > 0
    ensures Answerable(requests[1..], i - 1, n) && requests[1..][i - 1] == requests[i]
  {
    assert forall j :: 0 <= j < i ==> requests[1..][j] == requests[j + 1];
  }

  /** More has been answered, and reply is the latest. */
  predicate Latest(replies: seq<Reply>, later: seq<Reply>, reply: Reply) {
    replies < later && later[|later| - 1] == reply
  }

  lemma LatestLater(replies: seq<Reply>, first: Reply, later: seq<Reply>, reply: Reply)
    requires Latest(replies + [first], later, reply)
    ensures Latest(replies, later, reply)
  {
  }

  /** Request i of those waiting at an idle server gets its turn and the full sum. */
  lemma {:induction false} WaitingIsAnswered(s: State, i: nat) returns (s': State)
    requires Inv(s) && ServerLive(s) && s.server == Ready && Answerable(Requests(s.srvBox), i, |s.procs|)
    ensures Reaches(Step, s, s')
    ensures Latest(s.replies, s'.replies, Reply(Requests(s.srvBox)[i].client, Gauss(|s.procs|)))
    ensures Inv(s') && ServerLive(s') && s'.server == Ready && |s'.procs| == |s.procs|
    ensures Requests(s'.srvBox) == Requests(s.srvBox)[i + 1..]
    decreases i
  {
    s' := OldestIsAnswered(s);
    if i > 0 {
      var s1 := s';
      AnswerableTail(Requests(s.srvBox), i, |s.procs|);
      s' := WaitingIsAnswered(s1, i - 1);
      LatestLater(s.replies, Reply(Requests(s.srvBox)[0].client, Gauss(|s.procs|)), s'.replies,
                  Reply(Requests(s.srvBox)[i].client, Gauss(|s.procs|)));
      ReachesTrans(Step, s, s1, s');
    }
  }

  /** A busy server answers the request it has first. */
  lemma QueuedIsAnswered(s: State, i: nat) returns (s': State)
    requires Inv(s) && ServerLive(s) && s.server != Stopped && Answerable(Requests(s.srvBox), i, |s.procs|)
    ensures Reaches(Step, s, s')
    ensures Latest(s.replies, s'.replies, Reply(Requests(s.srvBox)[i].client, Gauss(|s.procs|)))
  {
    if s.server.Awaiting? {
      var s1 := TakenIsAnswered(s);
      s' := WaitingIsAnswered(s1, i);
      LatestLater(s.replies, Reply(s.server.client, Gauss(|s.procs|)), s'.replies,
                  Reply(Requests(s.srvBox)[i].client, Gauss(|s.procs|)));
      ReachesTrans(Step, s, s1, s');
    } else {
      s' := WaitingIsAnswered(s, i);
    }
  }

  /** Any request in the mailbox of a server that is not stopped, with no close and no impossible request
      ahead of it, can still be answered with the full sum, however early it was sent. */
  lemma GetSumInTurn(n: nat, schedule: seq<Action>, i: nat) returns (s': State)
    requires Exec(Step, Init(n), schedule).server != Stopped
    requires Answerable(Requests(Exec(Step, Init(n), schedule).srvBox), i, n)
    ensures var s := Exec(Step, Init(n), schedule);
      && Reaches(Step, s, s') && s.replies < s'.replies
      && s'.replies[|s'.replies| - 1].client == Requests(s.srvBox)[i].client
      && 2 * s'.replies[|s'.replies| - 1].sum == n * (n - 1)
  {
    ReachableInv(n, schedule);
    ReachableLive(n, schedule);
    s' := QueuedIsAnswered(Exec(Step, Init(n), schedule), i);
    GaussClosed(n);
  }
}
