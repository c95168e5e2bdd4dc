/**
 Quotient, remainder and product of natural numbers, spelled as recursions; IsQuotRem and IsProduct
 say what they are.
 */
module Division {

  function Quot(x: nat, m: nat): nat
    requires m > 0
  {
    if x < m then 0 else Quot(x - m, m) + 1
  }

  function Rem(x: nat, m: nat): (r: nat)
    requires m > 0
    ensures r < m
  {
    if x < m then x else Rem(x - m, m)
  }

  function Times(k: nat, m: nat): nat {
    if k == 0 then 0 else Times(k - 1, m) + m
  }

  lemma {:induction false} IsQuotRem(x: nat, m: nat)
    requires m > 0
    ensures Quot(x, m) == x / m && Rem(x, m) == x % m
  {
    if x < m {
      Small(x, m);
    } else {
      IsQuotRem(x - m, m);
      LessOne(x, m);
    }
  }

  lemma {:induction false} IsProduct(k: nat, m: nat)
    ensures Times(k, m) == k * m
  {
    if k > 0 {
      IsProduct(k - 1, m);
      assert k * m == (k - 1) * m + m;
    }
  }

  lemma Small(x: nat, m: nat)
    requires x < m
    ensures x / m == 0 && x % m == x
  {
  }

  lemma LessOne(x: nat, m: nat)
    requires 0 < m <= x
    ensures x / m == (x - m) / m + 1 && x % m == (x - m) % m
  {
    var d, e := x / m, (x - m) / m;
    assert x == d * m + x % m && x - m == e * m + (x - m) % m;
    assert (e + 1) * m == e * m + m;
    if d < e + 1 { MulMono(d, e + 1, m); }
    if d > e + 1 { MulMono(e + 1, d, m); }
  }

  lemma MulMono(x: nat, y: nat, m: nat)
    requires x < y
    ensures x * m + m <= y * m
  {
    assert y * m == x * m + (y - x) * m;
    assert (y - x) * m == (y - x - 1) * m + m;
  }

  lemma {:induction false} Split(x: nat, m: nat)
    requires m > 0
    ensures x == Times(Quot(x, m), m) + Rem(x, m)
  {
    if x >= m { Split(x - m, m); }
  }

  lemma {:induction false} TimesMono(k: nat, j: nat, m: nat)
    requires k < j
    ensures Times(k, m) + m <= Times(j, m)
  {
    if k + 1 < j { TimesMono(k, j - 1, m); }
  }

  lemma TimesOrder(k: nat, j: nat, m: nat)
    ensures k < j ==> Times(k, m) + m <= Times(j, m)
  {
    if k < j { TimesMono(k, j, m); }
  }

  lemma {:induction false} TimesOne(k: nat)
    ensures Times(k, 1) == k
  {
    if k > 0 { TimesOne(k - 1); }
  }

  lemma {:induction false} TimesSum(k: nat, j: nat, m: nat)
    ensures Times(k + j, m) == Times(k, m) + Times(j, m)
  {
    if j > 0 { TimesSum(k, j - 1, m); }
  }

  /** A number determines its quotient and remainder. */
  lemma Unique(q: nat, o: nat, q': nat, o': nat, m: nat)
    requires o < m && o' < m && Times(q, m) + o == Times(q', m) + o'
    ensures q == q' && o == o'
  {
    if q < q' {
      TimesMono(q, q', m);
    } else if q' < q {
      TimesMono(q', q, m);
    }
  }

  lemma QuotRem(q: nat, o: nat, m: nat)
    requires o < m
    ensures Quot(Times(q, m) + o, m) == q && Rem(Times(q, m) + o, m) == o
  {
    var x := Times(q, m) + o;
    Split(x, m);
    Unique(q, o, Quot(x, m), Rem(x, m), m);
  }

  /** Numbers are ordered by quotient first, by remainder second. */
  lemma Order(x: nat, y: nat, m: nat)
    requires m > 0
    ensures Quot(x, m) < Quot(y, m) ==> x < y
    ensures Quot(x, m) == Quot(y, m) ==> y - x == Rem(y, m) - Rem(x, m)
  {
    Split(x, m);
    Split(y, m);
    if Quot(x, m) < Quot(y, m) { TimesMono(Quot(x, m), Quot(y, m), m); }
  }

  /** The numbers below n. */
  function Below(n: nat): (s: set<nat>)
    ensures forall l: nat :: l in s <==> l < n
  {
    if n == 0 then {} else Below(n - 1) + {n - 1}
  }

  lemma {:induction false} BelowCard(n: nat)
    ensures |Below(n)| == n
  {
    if n > 0 { BelowCard(n - 1); }
  }

  /** Numerator and denominator in a unit that is k times smaller. */
  lemma Scaled(x: nat, m: nat, k: nat)
    requires m > 0 && k > 0
    ensures m * k > 0 && x * k / (m * k) == x / m
  {
    var q, r := x / m, x % m;
    assert x == q * m + r;
    assert x * k == q * (m * k) + r * k;
    ProductOrder(r, m, k);
    QuotientIs(x * k, m * k, q, r * k);
  }

  lemma ProductOrder(r: nat, m: nat, k: nat)
    requires r < m && k > 0
    ensures r * k < m * k
  {
  }

  lemma QuotientIs(x: nat, m: nat, q: nat, r: nat)
    requires x == q * m + r && r < m
    ensures x / m == q
  {
    var d := x / m;
    assert x == d * m + x % m;
    if d < q { MulMono(d, q, m); }
    if d > q { MulMono(q, d, m); }
  }
}
