/** n places in a circle. */
module Circle {

  function Next(p: nat, n: nat): (q: nat)
    requires p < n
    ensures q < n
  {
    if p + 1 == n then 0 else p + 1
  }

  function Prev(p: nat, n: nat): (q: nat)
    requires p < n
    ensures q < n && Next(q, n) == p
  {
    if p == 0 then n - 1 else p - 1
  }
}
