/** Arithmetic of the two rings that add up all the process numbers. */
module RingSum {
  import opened Circle

  /** (p - k) mod n: the number that reaches process p after k hops. */
  function Origin(p: nat, k: nat, n: nat): (o: nat)
    requires p < n && k <= n
    ensures o < n
  {
    if k <= p then p - k else p + n - k
  }

  /** p's own number and the r numbers that reach it first. */
  function Partial(p: nat, r: nat, n: nat): nat
    requires p < n && r < n
  {
    Origin(p, r, n) + if r == 0 then 0 else Partial(p, r - 1, n)
  }

  /** 0 + 1 + ... + (n - 1) */
  function Gauss(n: nat): nat {
    if n == 0 then 0 else n - 1 + Gauss(n - 1)
  }

  lemma {:induction false} GaussClosed(n: nat)
    ensures 2 * Gauss(n) == n * (n - 1)
  {
    if n > 0 {
      GaussClosed(n - 1);
    }
  }

  lemma {:induction false} PartialByGauss(p: nat, r: nat, n: nat)
    requires p < n && r < n
    ensures r <= p ==> Partial(p, r, n) == Gauss(p + 1) - Gauss(p - r)
    ensures r > p ==> Partial(p, r, n) == Gauss(p + 1) + Gauss(n) - Gauss(n + p - r)
  {
    if r > 0 {
      PartialByGauss(p, r - 1, n);
    }
  }

  /** After n - 1 receives every process has the sum of all the numbers. */
  lemma FullSum(p: nat, n: nat)
    requires p < n
    ensures Partial(p, n - 1, n) == Gauss(n)
  {
    PartialByGauss(p, n - 1, n);
  }

  /** What p sends after k receives is what its neighbour has after k + 1. */
  lemma OneHop(p: nat, k: nat, n: nat)
    requires p < n && k < n
    ensures Origin(p, k, n) == Origin(Next(p, n), k + 1, n)
  {
  }

  /** A sequence of naturals has a smallest element. */
  lemma {:induction false} Smallest(s: seq<nat>) returns (i: nat)
    requires s != []
    ensures i < |s| && forall j :: 0 <= j < |s| ==> s[i] <= s[j]
    decreases |s|
  {
    i := 0;
    if |s| > 1 {
      var k := Smallest(s[1..]);
      assert forall j :: 1 <= j < |s| ==> s[j] == s[1..][j - 1];
      i := if s[0] <= s[k + 1] then 0 else k + 1;
    }
  }
}
