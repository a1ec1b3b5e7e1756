/** How the ring ends: `close` kills every process, none before it has the full sum, and answers its client. */
module ErlangClose {
  import opened Counting
  import opened ErlangRing
  import opened Mailbox
  import opened RingSum
  import opened Runs

  /** Process p has been killed, or its kill is in its mailbox or on the way. */
  predicate KillDue(s: State, p: nat)
    requires Shaped(s) && p < |s.procs|
  {
    !s.procs[p].alive || Kill in s.procs[p].box || Kill in s.control[p]
  }

  /** The server has ended and every process will be told. */
  predicate Closing(s: State) {
    Shaped(s) && s.server == Stopped && forall p :: 0 <= p < |s.procs| ==> KillDue(s, p)
  }

  lemma ReceiveKeepsDue(s: State, p: nat)
    requires Closing(s) && p < |s.procs|
    ensures Closing(ReceiveStep(s, p))
  {
    var me := s.procs[p];
    var k := Match(p, |s.procs|, me.counter, me.box);
    if me.alive && k < |me.box| {
      InWithout(me.box, k);
      var s' := ReceiveStep(s, p);
      forall q | 0 <= q < |s.procs| ensures KillDue(s', q) {
        assert KillDue(s, q);
      }
    }
  }

  lemma DeliveryKeepsDue(s: State, a: Action)
    requires Closing(s) && (a.DeliverInit? || a.DeliverNum? || a.DeliverControl?)
    ensures Closing(Step(s, a))
  {
    var s' := Step(s, a);
    if s' != s {
      forall q | 0 <= q < |s.procs| ensures KillDue(s', q) {
        assert KillDue(s, q);
        if q == a.p {
          assert s'.procs[q].box == s.procs[q].box + [s'.procs[q].box[|s.procs[q].box|]];
          InAppended(s.procs[q].box, s'.procs[q].box[|s.procs[q].box|]);
          assert a.DeliverControl? ==> s.control[q] == [s.control[q][0]] + s.control[q][1..];
        }
      }
    }
  }

  lemma {:induction false} NothingWanted(box: seq<SrvMsg>)
    ensures SrvMatch(Stopped, box) == |box|
    decreases |box|
  {
    if box != [] {
      NothingWanted(box[1..]);
    }
  }

  /** Once the server has ended nothing brings it back, nobody is answered any more, and no kill gets lost. */
  lemma StepKeepsClosing(s: State, a: Action)
    requires Closing(s)
    ensures Closing(Step(s, a)) && Step(s, a).replies == s.replies && Step(s, a).closed == s.closed
    ensures |Step(s, a).procs| == |s.procs|
  {
    match a
    case Receive(p) => if p < |s.procs| { ReceiveKeepsDue(s, p); }
    case Serve => NothingWanted(s.srvBox);
    case Ask(client, k) => RequestKeepsDue(s, AskSum(client, k));
    case Close(client) => RequestKeepsDue(s, AskClose(client));
    case _ => DeliveryKeepsDue(s, a);
  }

  lemma RequestKeepsDue(s: State, m: SrvMsg)
    requires Closing(s)
    ensures Closing(s.(srvBox := s.srvBox + [m]))
  {
    forall p | 0 <= p < |s.procs| ensures KillDue(s.(srvBox := s.srvBox + [m]), p) {
      assert KillDue(s, p);
    }
  }

  /** s' comes after s in a ring that is being closed. */
  ghost predicate ClosesTo(s: State, s': State) {
    Reaches(Step, s, s') && Inv(s') && Closing(s') && |s'.procs| == |s.procs| && s'.replies == s.replies && s'.closed == s.closed
  }

  lemma ClosesStep(s: State, a: Action)
    requires Inv(s) && Closing(s)
    ensures ClosesTo(s, Step(s, a))
  {
    ReachesSelf(Step, s);
    ReachesStep(Step, s, s, a);
    StepKeepsInv(s, a);
    StepKeepsClosing(s, a);
  }

  lemma ClosesTrans(s: State, s1: State, s2: State)
    requires ClosesTo(s, s1) && ClosesTo(s1, s2)
    ensures ClosesTo(s, s2)
  {
    ReachesTrans(Step, s, s1, s2);
  }

  /** The sums are finished first, however early the close comes. */
  lemma {:induction false} RingEnds(s: State) returns (s': State)
    requires Inv(s) && Closing(s)
    ensures ClosesTo(s, s') && AllSummed(s')
    decreases WorkLeft(s)
  {
    if AllSummed(s) {
      s' := s;
      ReachesSelf(Step, s);
    } else {
      var a := NeverStuck(s);
      ClosesStep(s, a);
      s' := RingEnds(Step(s, a));
      ClosesTrans(s, Step(s, a), s');
    }
  }

  predicate AllDead(s: State) { forall p :: 0 <= p < |s.procs| ==> !s.procs[p].alive }

  /** What a process still has to read, or be sent. */
  function DueAt(s: State, p: nat): nat
    requires Shaped(s) && p < |s.procs|
  {
    2 * |s.control[p]| + |s.procs[p].box|
  }

  function Dues(s: State): seq<nat>
    requires Shaped(s)
  {
    seq(|s.procs|, p requires 0 <= p < |s.procs| => DueAt(s, p))
  }

  lemma DueDrops(s: State, s': State, p: nat)
    requires Shaped(s) && Shaped(s') && |s'.procs| == |s.procs| && p < |s.procs| && DueAt(s', p) < DueAt(s, p)
    requires forall q :: 0 <= q < |s.procs| && q != p ==> DueAt(s', q) == DueAt(s, q)
    ensures Sum(Dues(s')) < Sum(Dues(s))
  {
    assert Dues(s') == Dues(s)[p := DueAt(s', p)];
    SumUpdate(Dues(s), p, DueAt(s', p));
  }

  lemma {:induction false} MatchFinds(p: nat, n: nat, counter: nat, box: seq<Msg>, i: nat)
    requires p < n && i < |box| && Wanted(p, n, counter, box[i])
    ensures Match(p, n, counter, box) <= i
    decreases |box|
  {
    if !Wanted(p, n, counter, box[0]) {
      MatchFinds(p, n, counter, box[1..], i - 1);
    }
  }

  /** A process that is to be killed reads what is before the kill, or is sent the next message. */
  lemma DyingMoves(s: State, p: nat) returns (a: Action)
    requires Inv(s) && Closing(s) && AllSummed(s) && p < |s.procs| && s.procs[p].alive
    ensures Shaped(Step(s, a)) && AllSummed(Step(s, a)) && |Step(s, a).procs| == |s.procs|
    ensures Sum(Dues(Step(s, a))) < Sum(Dues(s))
  {
    var me := s.procs[p];
    assert KillDue(s, p);
    if Kill in me.box {
      a := Receive(p);
      var i :| 0 <= i < |me.box| && me.box[i] == Kill;
      MatchFinds(p, |s.procs|, me.counter, me.box, i);
      assert me.counter == 0;
    } else {
      a := DeliverControl(p);
    }
    DueDrops(s, Step(s, a), p);
  }

  lemma {:induction false} AllDie(s: State) returns (s': State)
    requires Inv(s) && Closing(s) && AllSummed(s)
    ensures ClosesTo(s, s') && AllDead(s')
    decreases Sum(Dues(s))
  {
    if p: nat :| p < |s.procs| && s.procs[p].alive {
      var a := DyingMoves(s, p);
      ClosesStep(s, a);
      s' := AllDie(Step(s, a));
      ClosesTrans(s, Step(s, a), s');
    } else {
      s' := s;
      ReachesSelf(Step, s);
    }
  }

  /** The ring is over: no server, no process, each of them with the full sum. */
  predicate Over(s: State) {
    && s.server == Stopped && AllDead(s)
    && forall p :: 0 <= p < |s.procs| ==> s.procs[p].sum == Gauss(|s.procs|)
  }

  lemma DeadIsOver(s: State)
    requires Inv(s) && Closing(s) && AllDead(s)
    ensures Over(s)
  {
    forall p | 0 <= p < |s.procs| ensures s.procs[p].sum == Gauss(|s.procs|) {
      assert ProcOk(s, p);
      FullSum(p, |s.procs|);
    }
  }

  /** The close sends kill to every process and the answer to its client. */
  lemma CloseIsTaken(s: State, client: nat)
    requires Inv(s) && ServerLive(s) && s.server == Ready && Requests(s.srvBox) != []
    requires Requests(s.srvBox)[0] == AskClose(client)
    ensures var s' := Step(s, Serve);
      Inv(s') && Closing(s') && |s'.procs| == |s.procs| && s'.replies == s.replies && s'.closed == s.closed + [client]
  {
    var k, s' := SrvMatch(Ready, s.srvBox), Step(s, Serve);
    OnlyAnswersAhead(s.srvBox);
    RequestsWithout(s.srvBox, k);
    StepKeepsInv(s, Serve);
    forall p | 0 <= p < |s.procs| ensures KillDue(s', p) {
      assert s'.control[p][|s.control[p]|] == Kill;
    }
  }

  /** An idle server whose oldest request is a close: the run can go on until the ring is over and the client
      has its ok, and nobody else has been answered. */
  lemma CloseEndsAll(s: State, client: nat) returns (s': State)
    requires Inv(s) && ServerLive(s) && s.server == Ready && Requests(s.srvBox) != []
    requires Requests(s.srvBox)[0] == AskClose(client)
    ensures Reaches(Step, s, s') && |s'.procs| == |s.procs| && Over(s')
    ensures s'.replies == s.replies && s'.closed == s.closed + [client]
  {
    CloseIsTaken(s, client);
    var s1 := Step(s, Serve);
    ReachesSelf(Step, s);
    ReachesStep(Step, s, s, Serve);
    var s2 := RingEnds(s1);
    s' := AllDie(s2);
    DeadIsOver(s');
    ReachesTrans(Step, s1, s2, s');
    ReachesTrans(Step, s, s1, s');
  }

  /** A close waiting behind requests that can be answered gets its turn. */
  lemma ClosesInTurn(s: State, i: nat, client: nat) returns (s': State)
    requires Inv(s) && ServerLive(s) && s.server == Ready && i < |Requests(s.srvBox)|
    requires Requests(s.srvBox)[i] == AskClose(client) && (i > 0 ==> Answerable(Requests(s.srvBox), i - 1, |s.procs|))
    ensures Reaches(Step, s, s') && |s'.procs| == |s.procs| && Over(s')
    ensures s'.closed != [] && s'.closed[|s'.closed| - 1] == client
  {
    if i == 0 {
      s' := CloseEndsAll(s, client);
    } else {
      var s1 := WaitingIsAnswered(s, i - 1);
      s' := CloseEndsAll(s1, client);
      ReachesTrans(Step, s, s1, s');
    }
  }

  /** A busy server answers the request it has first. */
  lemma QueuedCloses(s: State, i: nat, client: nat) returns (s': State)
    requires Inv(s) && ServerLive(s) && s.server != Stopped && i < |Requests(s.srvBox)|
    requires Requests(s.srvBox)[i] == AskClose(client) && (i > 0 ==> Answerable(Requests(s.srvBox), i - 1, |s.procs|))
    ensures Reaches(Step, s, s') && |s'.procs| == |s.procs| && Over(s')
    ensures s'.closed != [] && s'.closed[|s'.closed| - 1] == client
  {
    if s.server.Awaiting? {
      var s1 := TakenIsAnswered(s);
      s' := ClosesInTurn(s1, i, client);
      ReachesTrans(Step, s, s1, s');
    } else {
      s' := ClosesInTurn(s, i, client);
    }
  }

  /** In every run: a close in the mailbox of a server that has not ended, with only requests ahead of it that
      can be answered, can still be carried out: every process is killed with its full sum, and the client gets
      its ok. */
  lemma CloseCanEnd(n: nat, schedule: seq<Action>, i: nat, client: nat) returns (s': State)
    requires var s := Exec(Step, Init(n), schedule);
      && s.server != Stopped && i < |Requests(s.srvBox)| && Requests(s.srvBox)[i] == AskClose(client)
      && (i > 0 ==> Answerable(Requests(s.srvBox), i - 1, n))
    ensures Reaches(Step, Exec(Step, Init(n), schedule), s') && |s'.procs| == n && Over(s') && 2 * Gauss(n) == n * (n - 1)
    ensures s'.closed != [] && s'.closed[|s'.closed| - 1] == client
  {
    ReachableInv(n, schedule);
    ReachableLive(n, schedule);
    GaussClosed(n);
    s' := QueuedCloses(Exec(Step, Init(n), schedule), i, client);
  }

  /** A request for a process that does not exist ends the server without an answer and without a kill. */
  lemma ImpossibleRequestEndsServer(s: State)
    requires Inv(s) && s.server == Ready && Requests(s.srvBox) != []
    requires Requests(s.srvBox)[0].AskSum? && Requests(s.srvBox)[0].k >= |s.procs|
    ensures var s' := Step(s, Serve);
      && s'.server == Stopped && s'.procs == s.procs && s'.control == s.control
      && s'.replies == s.replies && s'.closed == s.closed && Requests(s'.srvBox) == Requests(s.srvBox)[1..]
  {
    OnlyAnswersAhead(s.srvBox);
    RequestsWithout(s.srvBox, SrvMatch(Ready, s.srvBox));
  }

  /** After which nobody gets an answer, in any run. */
  lemma {:induction false} StoppedForGood(s: State, schedule: seq<Action>)
    requires s.server == Stopped
    ensures var s' := Exec(Step, s, schedule);
      s'.server == Stopped && s'.replies == s.replies && s'.closed == s.closed
    decreases |schedule|
  {
    if schedule != [] {
      var before := Exec(Step, s, schedule[..|schedule| - 1]);
      StoppedForGood(s, schedule[..|schedule| - 1]);
      NothingWanted(before.srvBox);
    }
  }
}
