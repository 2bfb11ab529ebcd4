/** Facts about the remainder operator that the solver does not find by itself. */
module Arith {

  lemma SmallMultiple(d: int, n: int)
    requires n > 0 && -n < d * n < n
    ensures d == 0
  {
  }

  /** Adding a multiple of the modulus does not change a remainder. */
  lemma ModOfShift(w: int, k: int, n: int)
    requires 0 <= w < n
    ensures (w + k * n) % n == w
  {
    var x := w + k * n;
    var q, r := x / n, x % n;
    assert x == q * n + r;
    assert (q - k) * n == q * n - k * n;
    SmallMultiple(q - k, n);
  }

  // Page arithmetic by repeated subtraction; `RemainderIsMod` ties it to the % operator.

  predicate Divides(k: nat, n: nat)
    requires k > 0
  {
    n == 0 || (n >= k && Divides(k, n - k))
  }

  function Remainder(w: nat, k: nat): (r: nat)
    requires k > 0
    ensures r < k && r <= w
    ensures k % 2 == 0 && w % 2 == 0 ==> r % 2 == 0
  {
    if w < k then w else Remainder(w - k, k)
  }

  lemma {:induction false} RemainderQuotient(w: nat, k: nat) returns (q: nat)
    requires k > 0
    ensures w == Remainder(w, k) + q * k
  {
    if w < k {
      q := 0;
    } else {
      var p := RemainderQuotient(w - k, k);
      q := p + 1;
      assert q * k == p * k + k;
    }
  }

  lemma RemainderIsMod(w: nat, k: nat)
    requires k > 0
    ensures Remainder(w, k) == w % k
  {
    var q := RemainderQuotient(w, k);
    ModOfShift(Remainder(w, k), q, k);
  }

  /** A number between two multiples has the lower one as its quotient. */
  lemma QuotientBetween(x: nat, q: nat, k: nat)
    requires k > 0 && q * k <= x < q * k + k
    ensures x / k == q && x % k == x - q * k
  {
    ModOfShift(x - q * k, q, k);
    var d := x / k - q;
    assert x == (x / k) * k + x % k;
    assert d * k == (x / k) * k - q * k;
    SmallMultiple(d, k);
  }

  lemma DivMod(x: nat, k: nat)
    requires k > 0
    ensures x == (x / k) * k + x % k && 0 <= x % k < k
  {
  }

  lemma QuotientRange(p: nat, q: nat, k: nat, x: nat)
    requires k > 0 && p == q * k
    ensures p <= x < p + k <==> x / k == q
    ensures p <= x < p + k ==> x - p == x % k
  {
    DivMod(x, k);
    if p <= x < p + k { QuotientBetween(x, q, k); }
  }

  /** The page of `w` holds the addresses with the same quotient, at their remainders. */
  lemma SamePage(w: nat, k: nat, x: nat)
    requires k > 0
    ensures var p := w - Remainder(w, k);
            && (p <= x < p + k <==> x / k == w / k)
            && (p <= x < p + k ==> x - p == x % k)
  {
    RemainderIsMod(w, k);
    DivMod(w, k);
    QuotientRange(w - Remainder(w, k), w / k, k, x);
  }

  /** The page that contains an address of the memory is inside the memory. */
  lemma {:induction false} PageIsInside(w: nat, k: nat, n: nat)
    requires k > 0 && Divides(k, n) && w < n
    ensures w - Remainder(w, k) + k <= n
  {
    if w >= k { PageIsInside(w - k, k, n - k); }
  }

  // Page numbers, likewise.

  function Quotient(w: nat, k: nat): (q: nat)
    requires k > 0
  {
    if w < k then 0 else 1 + Quotient(w - k, k)
  }

  /** Start of page `q` when pages are `k` long. */
  function PageBase(q: nat, k: nat): nat {
    if q == 0 then 0 else k + PageBase(q - 1, k)
  }

  lemma {:induction false} PageBaseOfQuotient(w: nat, k: nat)
    requires k > 0
    ensures PageBase(Quotient(w, k), k) == w - Remainder(w, k)
  {
    if w >= k { PageBaseOfQuotient(w - k, k); }
  }

  lemma {:induction false} PageBaseIsProduct(q: nat, k: nat)
    ensures PageBase(q, k) == q * k
  {
    if q > 0 {
      PageBaseIsProduct(q - 1, k);
      assert q * k == (q - 1) * k + k;
    }
  }

  lemma QuotientIsDiv(w: nat, k: nat)
    requires k > 0
    ensures Quotient(w, k) == w / k
  {
    PageBaseOfQuotient(w, k);
    PageBaseIsProduct(Quotient(w, k), k);
    RemainderIsMod(w, k);
    var d := w / k - Quotient(w, k);
    assert w == (w / k) * k + w % k;
    assert d * k == (w / k) * k - Quotient(w, k) * k;
    SmallMultiple(d, k);
  }

  /** Counting modulo `k`. */
  lemma NextRemainder(n: nat, k: nat)
    requires k > 0
    ensures (n + 1) % k == if n % k == k - 1 then 0 else n % k + 1
  {
    var q := n / k;
    assert n == q * k + n % k;
    if n % k == k - 1 {
      assert n + 1 == 0 + (q + 1) * k;
      ModOfShift(0, q + 1, k);
    } else {
      ModOfShift(n % k + 1, q, k);
    }
  }

  /** `n` counted modulo `k`, step by step. */
  function Cycle(n: nat, k: nat): (m: nat)
    requires k > 0
    ensures m < k
  {
    if n == 0 then 0 else var m := Cycle(n - 1, k); if m == k - 1 then 0 else m + 1
  }

  lemma {:induction false} CycleIsMod(n: nat, k: nat)
    requires k > 0
    ensures Cycle(n, k) == n % k
  {
    if n > 0 {
      CycleIsMod(n - 1, k);
      NextRemainder(n - 1, k);
    } else {
      ModOfShift(0, 0, k);
    }
  }

  function Pow2(n: nat): (p: nat)
    ensures p > 0
  {
    if n == 0 then 1 else 2 * Pow2(n - 1)
  }
}
