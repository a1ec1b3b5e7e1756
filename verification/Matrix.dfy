/** The four matrix multiplications of `eje_4.c`: they all add a product to C, with the loops in
    different orders and the outer one shared out among threads. */
module MatrixProduct {

  type Matrix = seq<seq<int>>

  predicate Square(m: Matrix, n: nat) {
    |m| == n && forall i :: 0 <= i < n ==> |m[i]| == n
  }

  /** The first m terms of row i of a times column j of b. */
  function Dot(a: Matrix, b: Matrix, i: nat, j: nat, m: nat): int
    requires Square(a, |a|) && Square(b, |a|) && i < |a| && j < |a| && m <= |a|
  {
    if m == 0 then 0 else Dot(a, b, i, j, m - 1) + a[i][m - 1] * b[m - 1][j]
  }

  function Transpose(b: Matrix, n: nat): (t: Matrix)
    requires Square(b, n)
    ensures Square(t, n) && forall i, j :: 0 <= i < n && 0 <= j < n ==> t[i][j] == b[j][i]
  {
    seq(n, i requires 0 <= i < n => seq(n, j requires 0 <= j < n => b[j][i]))
  }

  /** c + a * b */
  function PlusProduct(c: Matrix, a: Matrix, b: Matrix, n: nat): (r: Matrix)
    requires Square(c, n) && Square(a, n) && Square(b, n)
    ensures Square(r, n) && forall i, j :: 0 <= i < n && 0 <= j < n ==> r[i][j] == c[i][j] + Dot(a, b, i, j, n)
  {
    seq(n, i requires 0 <= i < n => seq(n, j requires 0 <= j < n => c[i][j] + Dot(a, b, i, j, n)))
  }

  ghost function Values(m: array2<int>, n: nat): (v: Matrix)
    requires m.Length0 == m.Length1 == n
    reads m
    ensures Square(v, n) && forall i, j :: 0 <= i < n && 0 <= j < n ==> v[i][j] == m[i, j]
  {
    seq(n, i requires 0 <= i < n reads m => seq(n, j requires 0 <= j < n reads m => m[i, j]))
  }

  /** The outer iterations in the order in which the threads happen to do them. */
  predicate IsOrder(order: seq<nat>, n: nat) {
    && (forall p :: 0 <= p < |order| ==> order[p] < n)
    && (forall p, q :: 0 <= p < q < |order| ==> order[p] != order[q])
    && (forall i :: 0 <= i < n ==> i in order)
  }

  lemma SameMatrix(a: Matrix, b: Matrix, n: nat)
    requires Square(a, n) && Square(b, n)
    requires forall i, j :: 0 <= i < n && 0 <= j < n ==> a[i][j] == b[i][j]
    ensures a == b
  {
    forall i | 0 <= i < n ensures a[i] == b[i] { }
  }

  method MultSec(A: array2<int>, B: array2<int>, C: array2<int>, n: nat)
    requires A.Length0 == A.Length1 == B.Length0 == B.Length1 == C.Length0 == C.Length1 == n && A != C && B != C
    modifies C
    ensures Values(C, n) == PlusProduct(old(Values(C, n)), Values(A, n), Values(B, n), n)
  {
    ghost var a, b, c := Values(A, n), Values(B, n), Values(C, n);
    ghost var d := PlusProduct(c, a, b, n);
    for i := 0 to n
      invariant forall r, s :: 0 <= r < n && 0 <= s < n ==> C[r, s] == if r < i then d[r][s] else c[r][s]
    {
      for j := 0 to n
        invariant forall r, s :: 0 <= r < n && 0 <= s < n ==>
          C[r, s] == if r < i || (r == i && s < j) then d[r][s] else c[r][s]
      {
        for k := 0 to n
          invariant C[i, j] == c[i][j] + Dot(a, b, i, j, k)
          invariant forall r, s :: 0 <= r < n && 0 <= s < n && !(r == i && s == j) ==>
            C[r, s] == if r < i || (r == i && s < j) then d[r][s] else c[r][s]
        {
          C[i, j] := C[i, j] + A[i, k] * B[k, j];
        }
      }
    }
    SameMatrix(Values(C, n), d, n);
  }

  /** C += A * transpose(B), the rows in any order: the inner loop reads B[j][k]. */
  method MultPar(A: array2<int>, B: array2<int>, C: array2<int>, n: nat, order: seq<nat>)
    requires A.Length0 == A.Length1 == B.Length0 == B.Length1 == C.Length0 == C.Length1 == n && A != C && B != C
    requires IsOrder(order, n)
    modifies C
    ensures Values(C, n) == PlusProduct(old(Values(C, n)), Values(A, n), Transpose(Values(B, n), n), n)
  {
    ghost var a, b, c := Values(A, n), Transpose(Values(B, n), n), Values(C, n);
    ghost var d := PlusProduct(c, a, b, n);
    for p := 0 to |order|
      invariant forall r, s :: 0 <= r < n && 0 <= s < n ==>
        C[r, s] == if r in order[..p] then d[r][s] else c[r][s]
    {
      var i := order[p];
      assert order[..p + 1] == order[..p] + [i];
      for j := 0 to n
        invariant forall r, s :: 0 <= r < n && 0 <= s < n ==>
          C[r, s] == if r in order[..p] || (r == i && s < j) then d[r][s] else c[r][s]
      {
        for k := 0 to n
          invariant C[i, j] == c[i][j] + Dot(a, b, i, j, k)
          invariant forall r, s :: 0 <= r < n && 0 <= s < n && !(r == i && s == j) ==>
            C[r, s] == if r in order[..p] || (r == i && s < j) then d[r][s] else c[r][s]
        {
          C[i, j] := C[i, j] + A[i, k] * B[j, k];
        }
      }
    }
    assert order[..|order|] == order;
    SameMatrix(Values(C, n), d, n);
  }

  /** One outer iteration of mult_par_ind_1: the statement adds to C[i][k], so every cell of row i grows
      by one term in each round of the middle loop. */
  method SweepRow(A: array2<int>, B: array2<int>, C: array2<int>, n: nat, i: nat)
    requires A.Length0 == A.Length1 == B.Length0 == B.Length1 == C.Length0 == C.Length1 == n && A != C && B != C
    requires i < n
    modifies C
    ensures forall s :: 0 <= s < n ==> C[i, s] == old(C[i, s]) + Dot(Values(A, n), Values(B, n), i, s, n)
    ensures forall r, s :: 0 <= r < n && 0 <= s < n && r != i ==> C[r, s] == old(C[r, s])
  {
    ghost var a, b := Values(A, n), Values(B, n);
    for j := 0 to n
      invariant forall r, s :: 0 <= r < n && 0 <= s < n && r != i ==> C[r, s] == old(C[r, s])
      invariant forall s :: 0 <= s < n ==> C[i, s] == old(C[i, s]) + Dot(a, b, i, s, j)
    {
      for k := 0 to n
        invariant forall r, s :: 0 <= r < n && 0 <= s < n && r != i ==> C[r, s] == old(C[r, s])
        invariant forall s :: 0 <= s < k ==> C[i, s] == old(C[i, s]) + Dot(a, b, i, s, j + 1)
        invariant forall s :: k <= s < n ==> C[i, s] == old(C[i, s]) + Dot(a, b, i, s, j)
      {
        C[i, k] := C[i, k] + A[i, j] * B[j, k];
      }
    }
  }

  /** C += A * B, the rows in any order and the two inner loops interchanged. */
  method MultParInd1(A: array2<int>, B: array2<int>, C: array2<int>, n: nat, order: seq<nat>)
    requires A.Length0 == A.Length1 == B.Length0 == B.Length1 == C.Length0 == C.Length1 == n && A != C && B != C
    requires IsOrder(order, n)
    modifies C
    ensures Values(C, n) == PlusProduct(old(Values(C, n)), Values(A, n), Values(B, n), n)
  {
    ghost var a, b, c := Values(A, n), Values(B, n), Values(C, n);
    for p := 0 to |order|
      invariant Values(A, n) == a && Values(B, n) == b
      invariant forall r, s :: 0 <= r < n && 0 <= s < n ==>
        C[r, s] == c[r][s] + if r in order[..p] then Dot(a, b, r, s, n) else 0
    {
      assert order[..p + 1] == order[..p] + [order[p]];
      SweepRow(A, B, C, n, order[p]);
    }
    assert order[..|order|] == order;
    SameMatrix(Values(C, n), PlusProduct(c, a, b, n), n);
  }

  /** One outer iteration of mult_par_ind_2: column j, cell by cell. */
  method SweepColumn(A: array2<int>, B: array2<int>, C: array2<int>, n: nat, j: nat)
    requires A.Length0 == A.Length1 == B.Length0 == B.Length1 == C.Length0 == C.Length1 == n && A != C && B != C
    requires j < n
    modifies C
    ensures forall r :: 0 <= r < n ==> C[r, j] == old(C[r, j]) + Dot(Values(A, n), Values(B, n), r, j, n)
    ensures forall r, s :: 0 <= r < n && 0 <= s < n && s != j ==> C[r, s] == old(C[r, s])
  {
    ghost var a, b := Values(A, n), Values(B, n);
    for i := 0 to n
      invariant forall r, s :: 0 <= r < n && 0 <= s < n && (s != j || r >= i) ==> C[r, s] == old(C[r, s])
      invariant forall r :: 0 <= r < i ==> C[r, j] == old(C[r, j]) + Dot(a, b, r, j, n)
    {
      for k := 0 to n
        invariant C[i, j] == old(C[i, j]) + Dot(a, b, i, j, k)
        invariant forall r, s :: 0 <= r < n && 0 <= s < n && (s != j || r > i) ==> C[r, s] == old(C[r, s])
        invariant forall r :: 0 <= r < i ==> C[r, j] == old(C[r, j]) + Dot(a, b, r, j, n)
      {
        C[i, j] := C[i, j] + A[i, k] * B[k, j];
      }
    }
  }

  /** C += A * B, the columns in any order. */
  method MultParInd2(A: array2<int>, B: array2<int>, C: array2<int>, n: nat, order: seq<nat>)
    requires A.Length0 == A.Length1 == B.Length0 == B.Length1 == C.Length0 == C.Length1 == n && A != C && B != C
    requires IsOrder(order, n)
    modifies C
    ensures Values(C, n) == PlusProduct(old(Values(C, n)), Values(A, n), Values(B, n), n)
  {
    ghost var a, b, c := Values(A, n), Values(B, n), Values(C, n);
    ghost var d := PlusProduct(c, a, b, n);
    for p := 0 to |order|
      invariant Values(A, n) == a && Values(B, n) == b
      invariant forall r, s :: 0 <= r < n && 0 <= s < n ==> C[r, s] == if s in order[..p] then d[r][s] else c[r][s]
    {
      assert order[..p + 1] == order[..p] + [order[p]];
      SweepColumn(A, B, C, n, order[p]);
    }
    assert order[..|order|] == order;
    SameMatrix(Values(C, n), d, n);
  }

  // ----- any interleaving of the statements -----

  /** C[i][j] += A[i][k] * B[k][j]; mult_par reads B[j][k] */
  datatype Stmt = Stmt(i: nat, j: nat, k: nat)

  /** What a list of statements adds to one cell. */
  function Added(a: Matrix, b: Matrix, stmts: seq<Stmt>, i: nat, j: nat): int
    requires Square(a, |a|) && Square(b, |a|) && InRange(stmts, |a|)
  {
    if stmts == [] then 0
    else
      var t := stmts[|stmts| - 1];
      Added(a, b, stmts[..|stmts| - 1], i, j) + if t.i == i && t.j == j then a[i][t.k] * b[t.k][j] else 0
  }

  predicate InRange(stmts: seq<Stmt>, n: nat) {
    forall p :: 0 <= p < |stmts| ==> stmts[p].i < n && stmts[p].j < n && stmts[p].k < n
  }

  /** Each of the n * n * n statements exactly once, whatever loops and threads produced the list. */
  ghost predicate EachOnce(stmts: seq<Stmt>, n: nat) {
    InRange(stmts, n) &&
    forall i, j, k :: 0 <= i < n && 0 <= j < n && 0 <= k < n ==> multiset(stmts)[Stmt(i, j, k)] == 1
  }

  /** The first m terms of a cell, each as often as its statement occurs. */
  function Weighted(a: Matrix, b: Matrix, stmts: seq<Stmt>, i: nat, j: nat, m: nat): int
    requires Square(a, |a|) && Square(b, |a|) && i < |a| && j < |a| && m <= |a|
  {
    if m == 0 then 0
    else Weighted(a, b, stmts, i, j, m - 1) + multiset(stmts)[Stmt(i, j, m - 1)] * (a[i][m - 1] * b[m - 1][j])
  }

  lemma {:induction false} WeightedSnoc(a: Matrix, b: Matrix, stmts: seq<Stmt>, t: Stmt, i: nat, j: nat, m: nat)
    requires Square(a, |a|) && Square(b, |a|) && i < |a| && j < |a| && m <= |a| && t.k < |a|
    ensures Weighted(a, b, stmts + [t], i, j, m) ==
            Weighted(a, b, stmts, i, j, m) + if t.i == i && t.j == j && t.k < m then a[i][t.k] * b[t.k][j] else 0
    decreases m
  {
    if m > 0 {
      WeightedSnoc(a, b, stmts, t, i, j, m - 1);
      var u := Stmt(i, j, m - 1);
      var x := a[i][m - 1] * b[m - 1][j];
      assert multiset(stmts + [t])[u] == multiset(stmts)[u] + if u == t then 1 else 0;
      assert (multiset(stmts)[u] + 1) * x == multiset(stmts)[u] * x + x;
    }
  }

  lemma {:induction false} AddedIsWeighted(a: Matrix, b: Matrix, stmts: seq<Stmt>, i: nat, j: nat)
    requires Square(a, |a|) && Square(b, |a|) && i < |a| && j < |a| && InRange(stmts, |a|)
    ensures Added(a, b, stmts, i, j) == Weighted(a, b, stmts, i, j, |a|)
    decreases |stmts|
  {
    if stmts == [] {
      NothingWeighted(a, b, i, j, |a|);
    } else {
      var init, t := stmts[..|stmts| - 1], stmts[|stmts| - 1];
      AddedIsWeighted(a, b, init, i, j);
      WeightedSnoc(a, b, init, t, i, j, |a|);
      assert init + [t] == stmts;
    }
  }

  lemma {:induction false} NothingWeighted(a: Matrix, b: Matrix, i: nat, j: nat, m: nat)
    requires Square(a, |a|) && Square(b, |a|) && i < |a| && j < |a| && m <= |a|
    ensures Weighted(a, b, [], i, j, m) == 0
  {
    if m > 0 { NothingWeighted(a, b, i, j, m - 1); }
  }

  lemma {:induction false} OnceIsDot(a: Matrix, b: Matrix, stmts: seq<Stmt>, i: nat, j: nat, m: nat)
    requires Square(a, |a|) && Square(b, |a|) && i < |a| && j < |a| && m <= |a| && EachOnce(stmts, |a|)
    ensures Weighted(a, b, stmts, i, j, m) == Dot(a, b, i, j, m)
    decreases m
  {
    if m > 0 { OnceIsDot(a, b, stmts, i, j, m - 1); }
  }

  /** Loop interchange and scheduling at once: every list that has each statement once, executed in
      place, leaves old C + A * B, or old C + A * transpose(B) when B is read as mult_par does. */
  method Execute(A: array2<int>, B: array2<int>, C: array2<int>, n: nat, stmts: seq<Stmt>, transposed: bool)
    requires A.Length0 == A.Length1 == B.Length0 == B.Length1 == C.Length0 == C.Length1 == n && A != C && B != C
    requires InRange(stmts, n)
    modifies C
    ensures EachOnce(stmts, n) ==>
      Values(C, n) ==
      PlusProduct(old(Values(C, n)), Values(A, n), if transposed then Transpose(Values(B, n), n) else Values(B, n), n)
  {
    ghost var a, b, c := Values(A, n), if transposed then Transpose(Values(B, n), n) else Values(B, n), Values(C, n);
    for p := 0 to |stmts|
      invariant forall r, s :: 0 <= r < n && 0 <= s < n ==> C[r, s] == c[r][s] + Added(a, b, stmts[..p], r, s)
    {
      var t := stmts[p];
      assert stmts[..p + 1][..p] == stmts[..p];
      var x := if transposed then B[t.j, t.k] else B[t.k, t.j];
      C[t.i, t.j] := C[t.i, t.j] + A[t.i, t.k] * x;
    }
    assert stmts[..|stmts|] == stmts;
    if EachOnce(stmts, n) {
      forall r, s | 0 <= r < n && 0 <= s < n ensures Added(a, b, stmts, r, s) == Dot(a, b, r, s, n) {
        AddedIsWeighted(a, b, stmts, r, s);
        OnceIsDot(a, b, stmts, r, s, n);
      }
      SameMatrix(Values(C, n), PlusProduct(c, a, b, n), n);
    }
  }

  // ----- 32-bit int -----

  const N := 1000
  const MAX_INT32 := 0x7fff_ffff

  /** What main fills A and B with: random() % 1000. */
  predicate Digits(m: Matrix) {
    Square(m, N) && forall i, j :: 0 <= i < N && 0 <= j < N ==> 0 <= m[i][j] < 1000
  }

  lemma DigitProduct(x: int, y: int)
    requires 0 <= x < 1000 && 0 <= y < 1000
    ensures 0 <= x * y <= 998001
  {
    assert x * y <= 999 * y;
  }

  lemma {:induction false} DotBounds(a: Matrix, b: Matrix, i: nat, j: nat, m: nat)
    requires Digits(a) && Digits(b) && i < N && j < N && m <= N
    ensures 0 <= Dot(a, b, i, j, m) <= m * 998001
    decreases m
  {
    if m > 0 {
      DotBounds(a, b, i, j, m - 1);
      DigitProduct(a[i][m - 1], b[m - 1][j]);
    }
  }

  lemma {:induction false} DotNines(a: Matrix, m: nat)
    requires Digits(a) && (forall r, s :: 0 <= r < N && 0 <= s < N ==> a[r][s] == 999) && m <= N
    ensures Dot(a, a, 0, 0, m) == m * 998001
    decreases m
  {
    if m > 0 {
      DotNines(a, m - 1);
      assert a[0][m - 1] == 999 && a[m - 1][0] == 999;
    }
  }

  predicate AllDigits(calls: seq<(Matrix, Matrix)>) {
    forall c :: 0 <= c < |calls| ==> Digits(calls[c].0) && Digits(calls[c].1)
  }

  /** A cell of C, zero at first, after m of the N terms of the last of these multiplications. */
  function Cell(calls: seq<(Matrix, Matrix)>, i: nat, j: nat, m: nat): int
    requires AllDigits(calls)
    requires i < N && j < N && m <= N
    decreases |calls|
  {
    if calls == [] then 0
    else
      var last := calls[|calls| - 1];
      Cell(calls[..|calls| - 1], i, j, N) + Dot(last.0, last.1, i, j, m)
  }

  lemma {:induction false} CellBounds(calls: seq<(Matrix, Matrix)>, i: nat, j: nat, m: nat)
    requires AllDigits(calls)
    requires i < N && j < N && m <= N
    ensures 0 <= Cell(calls, i, j, m) <= |calls| * 998001000
    decreases |calls|
  {
    if calls != [] {
      CellBounds(calls[..|calls| - 1], i, j, N);
      DotBounds(calls[|calls| - 1].0, calls[|calls| - 1].1, i, j, m);
    }
  }

  lemma {:induction false} AllNines(calls: seq<(Matrix, Matrix)>, a: Matrix)
    requires Digits(a) && forall r, s :: 0 <= r < N && 0 <= s < N ==> a[r][s] == 999
    requires forall c :: 0 <= c < |calls| ==> calls[c] == (a, a)
    ensures Cell(calls, 0, 0, N) == |calls| * 998001000
    decreases |calls|
  {
    if calls != [] {
      AllNines(calls[..|calls| - 1], a);
      DotNines(a, N);
    }
  }

  /** No cell of C leaves the 32-bit int while n successive multiplications run, whatever the digits. */
  ghost predicate Fits(n: nat) {
    forall calls: seq<(Matrix, Matrix)>, i: nat, j: nat, m: nat ::
      |calls| == n && AllDigits(calls) && i < N && j < N && m <= N
      ==> 0 <= Cell(calls, i, j, m) <= MAX_INT32
  }

  /** Two successive multiplications always fit, three do not: main makes four. */
  lemma FitsIff(n: nat)
    ensures Fits(n) <==> n <= 2
  {
    if n <= 2 {
      forall calls: seq<(Matrix, Matrix)>, i: nat, j: nat, m: nat |
        |calls| == n && AllDigits(calls) && i < N && j < N && m <= N
        ensures 0 <= Cell(calls, i, j, m) <= MAX_INT32
      {
        CellBounds(calls, i, j, m);
      }
    } else {
      var a := seq(N, _ => seq(N, _ => 999));
      assert Digits(a);
      var calls := seq(n, _ => (a, a));
      AllNines(calls, a);
      assert Cell(calls, 0, 0, N) > MAX_INT32;
    }
  }
}
