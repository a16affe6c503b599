/** The arithmetic of uthash's expansion policy: bucket selection by mask, the ideal chain
    length by shift and mask, expand_mult, nonideal_items, and the chain bound they keep. */
module HashPolicy {

  /** HASH_BKT_CAPACITY_THRESH */
  const THRESHOLD: nat := 10

  // ---- Shift and mask ----

  function Pow2(k: nat): (r: nat)
    ensures r >= 1
  {
    if k == 0 then 1 else 2 * Pow2(k - 1)
  }

  /** x & y */
  function BitAnd(x: nat, y: nat): (r: nat)
    decreases x
  {
    if x == 0 then 0 else 2 * BitAnd(x / 2, y / 2) + (x % 2) * (y % 2)
  }

  /** x >> k */
  function ShiftRight(x: nat, k: nat): nat
    decreases k
  {
    if k == 0 then x else ShiftRight(x / 2, k - 1)
  }

  lemma MulLe(a: nat, b: nat, d: nat)
    requires a <= b
    ensures a * d <= b * d
  {
    assert (b - a) * d >= 0;
  }

  lemma MulSucc(a: nat, d: nat)
    ensures (a + 1) * d == a * d + d
  {
  }

  lemma MulDouble(a: nat, d: nat)
    ensures a * (2 * d) == 2 * a * d
  {
  }

  lemma DivMod(x: nat, d: nat)
    requires d >= 1
    ensures x == (x / d) * d + x % d && x % d < d
  {
  }

  lemma QuotientUnique(d: nat, q: nat, r: nat, q': nat, r': nat)
    requires q * d + r == q' * d + r' && r < d && r' < d
    ensures q == q'
  {
    if q' < q {
      MulLe(q' + 1, q, d);
      MulSucc(q', d);
      assert false;
    } else if q < q' {
      MulLe(q + 1, q', d);
      MulSucc(q, d);
      assert false;
    }
  }

  lemma DivModUnique(x: nat, d: nat, q: nat, r: nat)
    requires x == q * d + r && r < d
    ensures x / d == q && x % d == r
  {
    DivMod(x, d);
    QuotientUnique(d, q, r, x / d, x % d);
  }

  lemma Halves(x: nat, n: nat)
    requires n >= 1
    ensures x / (2 * n) == (x / 2) / n
    ensures x % (2 * n) == 2 * ((x / 2) % n) + x % 2
  {
    var q, r := (x / 2) / n, (x / 2) % n;
    DivMod(x / 2, n);
    MulDouble(q, n);
    DivModUnique(x, 2 * n, q, 2 * r + x % 2);
  }

  lemma AndOdd(x: nat, y: nat)
    ensures BitAnd(x, 2 * y + 1) == 2 * BitAnd(x / 2, y) + x % 2
  {
    assert (2 * y + 1) / 2 == y && (2 * y + 1) % 2 == 1;
  }

  /** Masking with num_buckets - 1 is the remainder, for a power of two. */
  lemma {:induction false} MaskIsRemainder(x: nat, k: nat)
    ensures BitAnd(x, Pow2(k) - 1) == x % Pow2(k)
    decreases k
  {
    if k == 0 {
      AndZero(x);
    } else {
      hide BitAnd;
      var n := Pow2(k - 1);
      MaskIsRemainder(x / 2, k - 1);
      Halves(x, n);
      AndOdd(x, n - 1);
    }
  }

  lemma {:induction false} AndZero(x: nat)
    ensures BitAnd(x, 0) == 0
  {
    if x > 0 { AndZero(x / 2); }
  }

  lemma {:induction false} ShiftIsQuotient(x: nat, k: nat)
    ensures ShiftRight(x, k) == x / Pow2(k)
    decreases k
  {
    if k > 0 {
      ShiftIsQuotient(x / 2, k - 1);
      Halves(x, Pow2(k - 1));
    }
  }

  // ---- The ideal chain length ----

  /** r is ceil(n / b): the least r with n <= r * b. */
  ghost predicate IsCeil(n: nat, b: nat, r: nat) {
    n <= r * b && (r > 0 ==> (r - 1) * b < n)
  }

  /** What HASH_EXPAND_BUCKETS stores as ideal_chain_maxlen. */
  function IdealLength(items: nat, log2: nat): nat {
    ShiftRight(items, log2 + 1) + if BitAnd(items, 2 * Pow2(log2) - 1) != 0 then 1 else 0
  }

  lemma CeilByQuotient(n: nat, b: nat)
    requires b >= 1
    ensures IsCeil(n, b, n / b + if n % b != 0 then 1 else 0)
  {
    var q := n / b;
    DivMod(n, b);
    MulSucc(q, b);
    if q > 0 { MulSucc(q - 1, b); }
  }

  /** Shift and mask compute ceil(items / (2 * num_buckets)), which is not 0. */
  lemma IdealIsCeil(items: nat, log2: nat)
    ensures IsCeil(items, 2 * Pow2(log2), IdealLength(items, log2))
    ensures items > 0 ==> IdealLength(items, log2) > 0
  {
    hide IsCeil;
    var b := Pow2(log2 + 1);
    assert b == 2 * Pow2(log2);
    MaskIsRemainder(items, log2 + 1);
    ShiftIsQuotient(items, log2 + 1);
    CeilByQuotient(items, b);
    CeilPositive(items, b, IdealLength(items, log2));
  }

  lemma CeilPositive(n: nat, b: nat, r: nat)
    requires IsCeil(n, b, r)
    ensures n > 0 ==> r > 0
  {
  }

  // ---- Bucket counts ----

  function Sum(s: seq<nat>): nat { if s == [] then 0 else s[0] + Sum(s[1..]) }

  lemma {:induction false} SumUpdate(s: seq<nat>, i: nat, v: nat)
    requires i < |s|
    ensures Sum(s[i := v]) + s[i] == Sum(s) + v
  {
    if i == 0 {
      assert s[i := v][1..] == s[1..];
    } else {
      SumUpdate(s[1..], i - 1, v);
      assert s[i := v][1..] == s[1..][i - 1 := v];
    }
  }

  lemma {:induction false} SumZeros(s: seq<nat>)
    requires forall i | 0 <= i < |s| :: s[i] == 0
    ensures Sum(s) == 0
  {
    if s != [] { SumZeros(s[1..]); }
  }

  /** expand_mult of a bucket with c items after an expansion. */
  function MultOf(c: nat, ideal: nat): nat
    requires ideal > 0
  {
    if c > ideal then c / ideal else 0
  }

  function ExcessOf(c: nat, ideal: nat): nat { if c > ideal then c - ideal else 0 }

  /** nonideal_items: how many items sit deeper in their chain than the ideal length. */
  function Excess(counts: seq<nat>, ideal: nat): nat {
    if counts == [] then 0 else ExcessOf(counts[0], ideal) + Excess(counts[1..], ideal)
  }

  lemma {:induction false} ExcessUpdate(s: seq<nat>, i: nat, v: nat, ideal: nat)
    requires i < |s|
    ensures Excess(s[i := v], ideal) + ExcessOf(s[i], ideal) == Excess(s, ideal) + ExcessOf(v, ideal)
  {
    if i == 0 {
      assert s[i := v][1..] == s[1..];
    } else {
      ExcessUpdate(s[1..], i - 1, v, ideal);
      assert s[i := v][1..] == s[1..][i - 1 := v];
    }
  }

  lemma {:induction false} ExcessZeros(s: seq<nat>, ideal: nat)
    requires forall i | 0 <= i < |s| :: s[i] == 0
    ensures Excess(s, ideal) == 0
  {
    if s != [] { ExcessZeros(s[1..], ideal); }
  }

  // ---- The bound ----

  /** The chain bound of one bucket. */
  predicate Within(count: nat, mult: nat) {
    if mult == 0 then count <= THRESHOLD else count < (mult + 1) * THRESHOLD
  }

  ghost predicate AllWithin(counts: seq<nat>, mult: seq<nat>) {
    && |counts| == |mult|
    && forall i | 0 <= i < |counts| :: Within(counts[i], mult[i])
  }

  /** What the policy keeps while noexpand is 0. */
  ghost predicate Bounded(counts: seq<nat>, mult: seq<nat>, ideal: nat) {
    && AllWithin(counts, mult)
    && Sum(mult) <= |counts|
    && ideal <= THRESHOLD
  }

  lemma {:induction false} ItemsBelow(counts: seq<nat>, mult: seq<nat>)
    requires AllWithin(counts, mult)
    ensures Sum(counts) <= THRESHOLD * |counts| + THRESHOLD * Sum(mult)
    ensures Sum(mult) > 0 ==> Sum(counts) < THRESHOLD * |counts| + THRESHOLD * Sum(mult)
  {
    if counts != [] {
      var c, m := counts[1..], mult[1..];
      forall i | 0 <= i < |c| ensures Within(c[i], m[i]) {
        assert Within(counts[i + 1], mult[i + 1]);
      }
      ItemsBelow(c, m);
      assert Within(counts[0], mult[0]);
    }
  }

  /** num_items < 20 * num_buckets. */
  lemma FewItems(counts: seq<nat>, mult: seq<nat>, ideal: nat)
    requires Bounded(counts, mult, ideal) && |counts| > 0
    ensures Sum(counts) < 2 * THRESHOLD * |counts|
  {
    ItemsBelow(counts, mult);
  }

  lemma MultBounds(c: nat, ideal: nat)
    requires 0 < ideal <= THRESHOLD
    ensures Within(c, MultOf(c, ideal))
    ensures MultOf(c, ideal) * ideal <= c
  {
    if c > ideal {
      var m := c / ideal;
      DivMod(c, ideal);
      MulSucc(m, ideal);
      assert c < (m + 1) * ideal;
      MulLe(ideal, THRESHOLD, m + 1);
    }
  }

  function Mults(counts: seq<nat>, ideal: nat): (r: seq<nat>)
    requires ideal > 0
    ensures |r| == |counts|
  {
    seq(|counts|, i requires 0 <= i < |counts| => MultOf(counts[i], ideal))
  }

  lemma MulAdd(a: nat, b: nat, d: nat)
    ensures (a + b) * d == a * d + b * d
  {
  }

  lemma {:induction false} MultsSum(counts: seq<nat>, ideal: nat)
    requires 0 < ideal <= THRESHOLD
    ensures Sum(Mults(counts, ideal)) * ideal <= Sum(counts)
  {
    hide MultOf, Within;
    if counts != [] {
      MultsSum(counts[1..], ideal);
      assert Mults(counts, ideal)[1..] == Mults(counts[1..], ideal);
      MultBounds(counts[0], ideal);
      MulAdd(MultOf(counts[0], ideal), Sum(Mults(counts[1..], ideal)), ideal);
    }
  }

  lemma CeilAtMost(n: nat, b: nat, r: nat, t: nat)
    requires IsCeil(n, b, r) && n <= t * b
    ensures r <= t
  {
    if r > t {
      MulLe(t, r - 1, b);
      assert false;
    }
  }

  lemma SumFits(a: nat, ideal: nat, n: nat, items: nat)
    requires ideal > 0 && a * ideal <= items <= n * ideal
    ensures a <= n
  {
    if a > n {
      MulLe(n + 1, a, ideal);
      MulSucc(n, ideal);
      assert false;
    }
  }

  /** Doubling re-establishes the bound: at most 20 items per old bucket give an ideal
      length of at most 10 over the doubled buckets, however unevenly they spread. */
  lemma ExpansionRebounds(counts: seq<nat>, items: nat, ideal: nat)
    requires Sum(counts) == items && items > 0
    requires IsCeil(items, |counts|, ideal)
    requires items <= THRESHOLD * |counts|
    ensures ideal > 0 && Bounded(counts, Mults(counts, ideal), ideal)
  {
    CeilAtMost(items, |counts|, ideal, THRESHOLD);
    assert ideal > 0 by { assert ideal == 0 ==> ideal * |counts| == 0; }
    MultsSum(counts, ideal);
    SumFits(Sum(Mults(counts, ideal)), ideal, |counts|, items);
    forall i | 0 <= i < |counts| ensures Within(counts[i], Mults(counts, ideal)[i]) {
      MultBounds(counts[i], ideal);
    }
  }

  /** An addition that does not reach its bucket's limit keeps the bound. */
  lemma GrowthStaysBounded(counts: seq<nat>, mult: seq<nat>, ideal: nat, i: nat)
    requires Bounded(counts, mult, ideal) && i < |counts|
    requires counts[i] + 1 < (mult[i] + 1) * THRESHOLD
    ensures Bounded(counts[i := counts[i] + 1], mult, ideal)
  {
  }

  lemma RemovalStaysBounded(counts: seq<nat>, mult: seq<nat>, ideal: nat, i: nat)
    requires Bounded(counts, mult, ideal) && i < |counts| && counts[i] > 0
    ensures Bounded(counts[i := counts[i] - 1], mult, ideal)
  {
    assert Within(counts[i], mult[i]);
  }
}
