/**
 Addressing of sectors, w to a line: sector x is sector Rem(x, w) of line Quot(x, w), and a request
 covers a part of each line it touches.
 */
module SectorMath {
  import opened Division

  lemma SameSector(x: nat, y: nat, w: nat)
    requires w > 0 && Quot(x, w) == Quot(y, w) && Rem(x, w) == Rem(y, w)
    ensures x == y
  {
    Split(x, w);
    Split(y, w);
  }

  /** How many lines the n sectors from a on touch. */
  function Lines(a: nat, n: nat, w: nat): (c: nat)
    requires n > 0 && w > 0
    ensures c > 0
  {
    Order(a + n - 1, a, w);
    Quot(a + n - 1, w) - Quot(a, w) + 1
  }

  /** First and last sector of the request in its i-th line. */
  function Start(a: nat, w: nat, i: nat): (s: nat)
    requires w > 0
    ensures s < w
  {
    if i == 0 then Rem(a, w) else 0
  }

  function End(a: nat, n: nat, w: nat, i: nat): (e: nat)
    requires n > 0 && w > 0
    ensures e < w
  {
    if i == Lines(a, n, w) - 1 then Rem(a + n - 1, w) else w - 1
  }

  /** Start and End delimit exactly the sectors of the request in line i. */
  lemma Cover(a: nat, n: nat, w: nat, x: nat)
    requires n > 0 && w > 0
    ensures a <= x < a + n ==> Quot(a, w) <= Quot(x, w) < Quot(a, w) + Lines(a, n, w)
    ensures Quot(a, w) <= Quot(x, w) < Quot(a, w) + Lines(a, n, w) ==>
      (a <= x < a + n <==> Start(a, w, Quot(x, w) - Quot(a, w)) <= Rem(x, w) <= End(a, n, w, Quot(x, w) - Quot(a, w)))
  {
    Order(x, a, w);
    Order(a, x, w);
    Order(x, a + n - 1, w);
    Order(a + n - 1, x, w);
  }

  /** Sector k of a run that starts in line p at sector s, when line p + i mirrors line i of the request. */
  lemma Mirror(a: nat, x: nat, p: nat, w: nat)
    requires w > 0 && a <= x
    ensures Quot(x, w) >= Quot(a, w)
    ensures Times(p + (Quot(x, w) - Quot(a, w)), w) + Rem(x, w) == Times(p, w) + Rem(a, w) + (x - a)
  {
    Order(x, a, w);
    Split(a, w);
    Split(x, w);
    var i := Quot(x, w) - Quot(a, w);
    TimesSum(p, i, w);
    TimesSum(Quot(a, w), i, w);
  }
}
