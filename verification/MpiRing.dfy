/** The ring of `eje_8.c`: n MPI processes, buffered sends, one FIFO channel per neighbour. */
module MpiRing {
  import opened Runs
  import opened Circle
  import opened Counting
  import opened RingSum

  /** sending: about to send, in the loop round i; otherwise about to receive. */
  datatype Proc = Proc(sending: bool, i: nat, buff: nat, sum: nat)

  /** link[p]: what p has sent and its destination has not received. */
  datatype State = State(procs: seq<Proc>, link: seq<seq<nat>>)

  function Init(n: nat): State {
    State(seq(n, p requires 0 <= p => Proc(true, 0, p, p)), seq(n, _ => []))
  }

  predicate Shaped(s: State) { |s.link| == |s.procs| }

  /** The ranks named in MPI_Send and MPI_Recv: rank 0 has literals of its own. */
  function Dest(p: nat, n: nat): nat
    requires n > 0
  {
    if p == 0 then 1 else (p + 1) % n
  }

  function Source(p: nat, n: nat): nat
    requires p < n
  {
    if p == 0 then n - 1 else (p - 1) % n
  }

  lemma SmallMod(x: int, n: nat)
    requires n > 0
    ensures 0 <= x < n ==> x % n == x
  {
  }

  lemma RingNeighbours(p: nat, n: nat)
    requires p < n && n > 1
    ensures Dest(p, n) == Next(p, n) && Source(p, n) == Prev(p, n) && Dest(Source(p, n), n) == p
  {
    SmallMod(p - 1, n);
    SmallMod(p + 1, n);
    assert n % n == 0;
  }

  predicate Finished(s: State, p: nat)
    requires p < |s.procs|
  {
    s.procs[p].i + 1 >= |s.procs|
  }

  /** One MPI call of process p; a receive waits for a message from its source. */
  function Step(s: State, p: nat): State {
    if !Shaped(s) || p >= |s.procs| || Finished(s, p) then s
    else
      var n := |s.procs|;
      var me := s.procs[p];
      var src := Source(p, n);
      if me.sending then
        s.(procs := s.procs[p := me.(sending := false)], link := s.link[p := s.link[p] + [me.buff]])
      else if src < n && Dest(src, n) == p && s.link[src] != [] then
        var v := s.link[src][0];
        s.(procs := s.procs[p := Proc(true, me.i + 1, v, me.sum + v)], link := s.link[src := s.link[src][1..]])
      else s
  }

  function Sent(me: Proc): nat { me.i + if me.sending then 0 else 1 }

  predicate ProcOk(s: State, p: nat)
    requires p < |s.procs|
  {
    var n, me := |s.procs|, s.procs[p];
    && me.i < n
    && (me.i == n - 1 ==> me.sending)
    && me.buff == Origin(p, me.i, n)
    && me.sum == Partial(p, me.i, n)
  }

  /** The channel out of p holds exactly the messages between p's sends and its neighbour's receives. */
  predicate LinkOk(s: State, p: nat)
    requires Shaped(s) && p < |s.procs|
  {
    var n := |s.procs|;
    var to := s.procs[Next(p, n)];
    && Sent(s.procs[p]) <= n
    && to.i + |s.link[p]| == Sent(s.procs[p])
    && forall x :: 0 <= x < |s.link[p]| ==> s.link[p][x] == Origin(p, to.i + x, n)
  }

  ghost predicate Inv(s: State) {
    Shaped(s) && forall p :: 0 <= p < |s.procs| ==> ProcOk(s, p) && LinkOk(s, p)
  }

  lemma SendKeepsInv(s: State, p: nat)
    requires Inv(s) && p < |s.procs| && !Finished(s, p) && s.procs[p].sending
    ensures Inv(Step(s, p))
  {
    var s', n, me := Step(s, p), |s.procs|, s.procs[p];
    assert s' == s.(procs := s.procs[p := me.(sending := false)], link := s.link[p := s.link[p] + [me.buff]]);
    assert ProcOk(s, p) && LinkOk(s, p) && ProcOk(s, Next(p, n));
    forall q | 0 <= q < n ensures ProcOk(s', q) && LinkOk(s', q) {
      assert ProcOk(s, q) && LinkOk(s, q);
      assert s'.procs[Next(q, n)].i == s.procs[Next(q, n)].i;
    }
  }

  lemma ReceiveKeepsInv(s: State, p: nat)
    requires Inv(s) && p < |s.procs| && !Finished(s, p) && !s.procs[p].sending && s.link[Prev(p, |s.procs|)] != []
    ensures Inv(Step(s, p))
  {
    var s', n, me := Step(s, p), |s.procs|, s.procs[p];
    var src := Prev(p, n);
    RingNeighbours(p, n);
    var v := s.link[src][0];
    assert s' == s.(procs := s.procs[p := Proc(true, me.i + 1, v, me.sum + v)], link := s.link[src := s.link[src][1..]]);
    assert ProcOk(s, p) && LinkOk(s, src) && s.link[src][0] == Origin(src, me.i + 0, n);
    OneHop(src, me.i, n);
    assert ProcOk(s', p);
    forall q | 0 <= q < n ensures ProcOk(s', q) && LinkOk(s', q) {
      assert ProcOk(s, q) && LinkOk(s, q);
      assert Next(q, n) == p <==> q == src;
      if q == src {
        assert forall x :: 0 <= x < |s'.link[q]| ==> s'.link[q][x] == s.link[q][x + 1];
      }
    }
  }

  lemma StepKeepsInv(s: State, p: nat)
    requires Inv(s)
    ensures Inv(Step(s, p)) && |Step(s, p).procs| == |s.procs|
  {
    if p < |s.procs| && !Finished(s, p) {
      RingNeighbours(p, |s.procs|);
      if s.procs[p].sending {
        SendKeepsInv(s, p);
      } else if s.link[Prev(p, |s.procs|)] != [] {
        ReceiveKeepsInv(s, p);
      }
    }
  }

  lemma ReachableInv(n: nat, schedule: seq<nat>)
    ensures Inv(Exec(Step, Init(n), schedule)) && |Exec(Step, Init(n), schedule).procs| == n
  {
    forall s: State, a: nat | Inv(s) && |s.procs| == n ensures Inv(Step(s, a)) && |Step(s, a).procs| == n {
      StepKeepsInv(s, a);
    }
    InvariantHolds(Step, (s: State) => Inv(s) && |s.procs| == n, Init(n), schedule);
  }

  lemma OriginIsRemainder(p: nat, k: nat, n: nat)
    requires p < n && k < n
    ensures Origin(p, k, n) == (p - k) % n
  {
    if k > p {
      assert p - k == -1 * n + (p + n - k);
    }
  }

  /** After r receives process p holds the number of the process r places before it. */
  lemma BuffIsOrigin(n: nat, schedule: seq<nat>, p: nat)
    requires p < n
    ensures var s := Exec(Step, Init(n), schedule);
            |s.procs| == n && s.procs[p].i < n && s.procs[p].buff == (p - s.procs[p].i) % n
  {
    ReachableInv(n, schedule);
    var s := Exec(Step, Init(n), schedule);
    assert ProcOk(s, p);
    OriginIsRemainder(p, s.procs[p].i, n);
  }

  predicate AllFinished(s: State) { forall p :: 0 <= p < |s.procs| ==> Finished(s, p) }

  /** When all the loops are over every process has 0 + ... + (n - 1) and nothing is in transit. */
  lemma FinalSums(n: nat, schedule: seq<nat>, p: nat)
    requires p < n && AllFinished(Exec(Step, Init(n), schedule))
    ensures var s := Exec(Step, Init(n), schedule);
            |s.procs| == |s.link| == n && 2 * s.procs[p].sum == n * (n - 1) && s.link[p] == []
  {
    ReachableInv(n, schedule);
    var s := Exec(Step, Init(n), schedule);
    assert ProcOk(s, p) && LinkOk(s, p) && ProcOk(s, Next(p, n));
    assert Finished(s, p) && Finished(s, Next(p, n));
    FullSum(p, n);
    GaussClosed(n);
  }

  /** MPI calls process p still has to make. */
  function CallsLeft(me: Proc, n: nat): nat {
    if me.i + 1 < n then 2 * (n - 1 - me.i) - (if me.sending then 0 else 1) else 0
  }

  function AllCallsLeft(s: State): seq<nat> {
    seq(|s.procs|, p requires 0 <= p < |s.procs| => CallsLeft(s.procs[p], |s.procs|))
  }

  /** Every call that does not wait is one call less; n (n - 1) sends and as many receives in all. */
  lemma CallsDecrease(s: State, p: nat)
    requires Inv(s) && Step(s, p) != s
    ensures Sum(AllCallsLeft(Step(s, p))) == Sum(AllCallsLeft(s)) - 1
  {
    var s' := Step(s, p);
    StepKeepsInv(s, p);
    assert ProcOk(s, p);
    assert AllCallsLeft(s') == AllCallsLeft(s)[p := CallsLeft(s'.procs[p], |s.procs|)];
    SumUpdate(AllCallsLeft(s), p, CallsLeft(s'.procs[p], |s.procs|));
  }

  /** No deadlock: until all have finished, the process that has received least, or the one it is
      waiting for, can go on. */
  lemma NeverStuck(s: State) returns (p: nat)
    requires Inv(s) && !AllFinished(s)
    ensures p < |s.procs| && Step(s, p) != s
  {
    var n := |s.procs|;
    var received := seq(n, q requires 0 <= q < n => s.procs[q].i);
    p := Smallest(received);
    var q :| 0 <= q < n && !Finished(s, q);
    assert received[p] <= received[q];
    RingNeighbours(p, n);
    var src := Prev(p, n);
    assert received[p] <= received[src];
    assert ProcOk(s, p) && LinkOk(s, src);
    if !s.procs[p].sending && s.link[src] == [] {
      assert s.procs[src].sending && s.procs[src].i == s.procs[p].i;
      p := src;
    }
    assert s.procs[p].sending ==> Step(s, p).procs[p] != s.procs[p];
    assert !s.procs[p].sending ==> Step(s, p).procs[p] != s.procs[p];
  }

  /** A process waits only in MPI_Recv, and exactly while it has received all that its source has sent. */
  lemma WaitsIff(s: State, p: nat)
    requires Inv(s) && p < |s.procs| && !Finished(s, p)
    ensures Step(s, p) == s <==>
      !s.procs[p].sending && s.procs[p].i == Sent(s.procs[Prev(p, |s.procs|)])
  {
    var n, me, me' := |s.procs|, s.procs[p], Step(s, p).procs[p];
    RingNeighbours(p, n);
    assert ProcOk(s, p) && LinkOk(s, Prev(p, n));
    assert me.sending ==> me' != me;
    assert !me.sending && s.link[Prev(p, n)] != [] ==> me' != me;
  }

  /** So every run can be continued until all have finished, and only in so many calls. */
  lemma {:induction false} RunsFinish(s: State) returns (rest: seq<nat>)
    requires Inv(s)
    ensures AllFinished(Exec(Step, s, rest)) && |rest| == Sum(AllCallsLeft(s))
    decreases Sum(AllCallsLeft(s))
  {
    if AllFinished(s) {
      rest := [];
      assert forall p :: 0 <= p < |s.procs| ==> Finished(s, p) && AllCallsLeft(s)[p] == 0;
      SumConstant(AllCallsLeft(s), 0);
    } else {
      var p := NeverStuck(s);
      CallsDecrease(s, p);
      StepKeepsInv(s, p);
      var tail := RunsFinish(Step(s, p));
      rest := [p] + tail;
      assert [p][..0] == [];
      ExecConcat(Step, s, [p], tail);
    }
  }

  /** The variables of main and the channels, updated in place. */
  class Program {
    const procs: array<Proc>
    const link: array<seq<nat>>

    ghost predicate Valid()
      reads this
    {
      procs.Length == link.Length
    }

    ghost function View(): State
      reads this, procs, link
    {
      State(procs[..], link[..])
    }

    /** sum = buff = sumando = my_id */
    constructor (n: nat)
      ensures Valid() && fresh(procs) && fresh(link) && View() == Init(n)
    {
      procs := new Proc[n](p => if p >= 0 then Proc(true, 0, p, p) else Proc(true, 0, 0, 0));
      link := new seq<nat>[n](_ => []);
    }

    /** MPI_Send or MPI_Recv of process p, whichever comes next in its loop. */
    method Call(p: nat)
      requires Valid() && p < procs.Length
      modifies procs, link
      ensures View() == Step(old(View()), p)
    {
      var me, n := procs[p], procs.Length;
      if me.i < n - 1 {
        if me.sending {
          link[p] := link[p] + [me.buff];
          procs[p] := me.(sending := false);
        } else {
          var src := if p == 0 then n - 1 else (p - 1) % n;
          RingNeighbours(p, n);
          if link[src] != [] {
            var buff := link[src][0];
            link[src] := link[src][1..];
            procs[p] := Proc(true, me.i + 1, buff, me.sum + buff);
          }
        }
      }
    }

    method Run(schedule: seq<nat>)
      requires Valid() && View() == Init(procs.Length)
      requires forall k :: 0 <= k < |schedule| ==> schedule[k] < procs.Length
      modifies procs, link
      ensures View() == Exec(Step, old(View()), schedule) && Inv(View())
    {
      ghost var s0 := View();
      for k := 0 to |schedule|
        invariant View() == Exec(Step, s0, schedule[..k])
      {
        ExecOne(Step, s0, schedule[..k], schedule[k]);
        assert schedule[..k + 1] == schedule[..k] + [schedule[k]];
        Call(schedule[k]);
      }
      assert schedule[..|schedule|] == schedule;
      ReachableInv(procs.Length, schedule);
    }
  }
}
