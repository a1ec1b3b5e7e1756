/** What the servers of `sync.erl` are held to: a counter of free places and the set of holders. */
module CountingSemaphore {
  datatype State = State(value: nat, holders: set<nat>)

  predicate Acquire(s: State, s': State, c: nat) {
    s.value > 0 && c !in s.holders && s' == State(s.value - 1, s.holders + {c})
  }

  predicate Release(s: State, s': State, c: nat) {
    c in s.holders && s' == State(s.value + 1, s.holders - {c})
  }

  predicate HandOver(s: State, s': State, c: nat, d: nat) {
    var mid := State(s.value + 1, s.holders - {c});
    Release(s, mid, c) && Acquire(mid, s', d)
  }

  /** Nothing, one operation, or a release followed at once by an acquire. */
  ghost predicate Next(s: State, s': State) {
    || s' == s
    || (exists c :: Acquire(s, s', c))
    || (exists c :: Release(s, s', c))
    || (exists c, d :: HandOver(s, s', c, d))
  }

  lemma AcquireConserves(s: State, s': State, c: nat)
    requires Acquire(s, s', c)
    ensures s'.value + |s'.holders| == s.value + |s.holders|
  {
  }

  lemma ReleaseConserves(s: State, s': State, c: nat)
    requires Release(s, s', c)
    ensures s'.value + |s'.holders| == s.value + |s.holders|
  {
    assert s.holders == s'.holders + {c};
  }

  /** The places are conserved. */
  lemma NextConserves(s: State, s': State)
    requires Next(s, s')
    ensures s'.value + |s'.holders| == s.value + |s.holders|
  {
    if c: nat :| Acquire(s, s', c) {
      AcquireConserves(s, s', c);
    } else if c: nat :| Release(s, s', c) {
      ReleaseConserves(s, s', c);
    } else if c: nat, d: nat :| HandOver(s, s', c, d) {
      var mid := State(s.value + 1, s.holders - {c});
      ReleaseConserves(s, mid, c);
      AcquireConserves(mid, s', d);
    }
  }
}
