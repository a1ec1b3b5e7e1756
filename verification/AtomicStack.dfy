/** The specification both bounded buffers are held to: a stack of at most `cap` pointers on which each
    `enviar` pushes and each `recibir` pops in one atomic step between its call and its return. */
module AtomicStack {
  import opened Counting

  datatype Client =
    | Idle
    | Sending(p: nat)     // enviar(p) called, p not on the stack yet
    | Sent                // pushed, not returned
    | Receiving           // recibir() called
    | Got(p: nat)         // popped p, not returned

  /** sent and received: the pointers handed to enviar and returned by recibir so far. */
  datatype State = State(cap: nat, stack: seq<nat>, cl: seq<Client>, sent: multiset<nat>, received: multiset<nat>)

  /** Client t makes one atomic step, or nothing happens. */
  predicate Next(s: State, s': State, t: nat) {
    s' == s ||
    (t < |s.cl| && |s'.cl| == |s.cl| && s'.cl == s.cl[t := s'.cl[t]] && s'.cap == s.cap &&
     match (s.cl[t], s'.cl[t])
     case (Idle, Sending(p)) => s' == s.(cl := s'.cl, sent := s.sent + multiset{p})
     case (Sending(p), Sent) => |s.stack| < s.cap && s' == s.(cl := s'.cl, stack := s.stack + [p])
     case (Sent, Idle) => s' == s.(cl := s'.cl)
     case (Idle, Receiving) => s' == s.(cl := s'.cl)
     case (Receiving, Got(p)) => s'.stack + [p] == s.stack && s' == s.(cl := s'.cl, stack := s'.stack)
     case (Got(p), Idle) => s' == s.(cl := s'.cl, received := s.received + multiset{p})
     case _ => false)
  }

  predicate Carries(c: Client, p: nat) { c == Sending(p) || c == Got(p) }

  /** How many clients hold pointer p between their call and the stack, or the stack and their return. */
  function InFlight(cl: seq<Client>, p: nat): nat {
    if cl == [] then 0 else B(Carries(cl[0], p)) + InFlight(cl[1..], p)
  }

  lemma {:induction false} InFlightUpdate(cl: seq<Client>, t: nat, c: Client, p: nat)
    requires t < |cl|
    ensures InFlight(cl[t := c], p) == InFlight(cl, p) - B(Carries(cl[t], p)) + B(Carries(c, p))
    decreases |cl|
  {
    if t == 0 {
      assert cl[t := c][1..] == cl[1..];
    } else {
      assert cl[t := c][1..] == cl[1..][t - 1 := c];
      InFlightUpdate(cl[1..], t - 1, c, p);
    }
  }

  /** Pointer p is received, stored or in somebody's hands as often as it has been sent. */
  predicate Accounted(s: State, p: nat) {
    s.sent[p] == s.received[p] + multiset(s.stack)[p] + InFlight(s.cl, p)
  }

  ghost predicate Conserved(s: State) {
    |s.stack| <= s.cap && forall p: nat :: Accounted(s, p)
  }

  lemma NextAccounts(s: State, s': State, t: nat, p: nat)
    requires Next(s, s', t) && s' != s && Accounted(s, p)
    ensures Accounted(s', p)
  {
    InFlightUpdate(s.cl, t, s'.cl[t], p);
    match (s.cl[t], s'.cl[t])
    case (Receiving, Got(q)) => assert multiset(s.stack) == multiset(s'.stack) + multiset{q};
    case _ =>
  }

  lemma NextConserves(s: State, s': State, t: nat)
    requires Next(s, s', t) && Conserved(s)
    ensures Conserved(s')
  {
    if s' != s {
      assert s'.stack == s.stack || |s'.stack| == |s.stack| + 1 || |s'.stack| + 1 == |s.stack|;
      forall p: nat ensures Accounted(s', p) { NextAccounts(s, s', t, p); }
    }
  }

  lemma {:induction false} NothingCarried(cl: seq<Client>, p: nat)
    requires forall t :: 0 <= t < |cl| ==> cl[t] == Idle
    ensures InFlight(cl, p) == 0
    decreases |cl|
  {
    if cl != [] {
      assert forall t :: 0 <= t < |cl| - 1 ==> cl[1..][t] == cl[t + 1];
      NothingCarried(cl[1..], p);
    }
  }

  /** Pointers sent at most once are received at most once, and not while they are still stored. */
  lemma DeliveredOnce(s: State, p: nat)
    requires Conserved(s) && s.sent[p] <= 1
    ensures s.received[p] <= 1 && !(p in s.received && p in s.stack)
  {
    assert Accounted(s, p);
    assert p in s.stack <==> p in multiset(s.stack);
  }
}
