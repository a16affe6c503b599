/** What a uthash table is, as a value: the app-order list, the bucket chains and the
    expansion bookkeeping, with HASH_ADD, HASH_DELETE, HASH_SRT and HASH_EXPAND_BUCKETS as
    functions on it, for an arbitrary hash function. */
module HashSpec {
  import opened Pointers
  import opened HashPolicy
  import opened SortSpec

  type Key = string
  type HashFunction = Key -> nat

  /** `key` is the key field of every element ever given one; only those in `order` are stored. */
  datatype Table = Table(order: seq<Ptr>, key: map<Ptr, Key>, chains: seq<seq<Ptr>>, mult: seq<nat>,
                         log2: nat, ideal: nat, nonideal: nat, ineff: nat, noexpand: bool)

  /** HASH_INITIAL_NUM_BUCKETS_LOG2 */
  const INITIAL_LOG2: nat := 5

  /** HASH_MAKE_TABLE; also stands for the NULL head, whose next addition makes this table. */
  function Made(key: map<Ptr, Key>): Table {
    Table([], key, seq(Pow2(INITIAL_LOG2), _ => []), seq(Pow2(INITIAL_LOG2), _ => 0), INITIAL_LOG2, 0, 0, 0, false)
  }

  /** The bucket that item x belongs to among n buckets. */
  function Slot(key: map<Ptr, Key>, hash: HashFunction, n: nat, x: Ptr): (r: nat)
    requires n > 0
    ensures r < n
  {
    if x in key then hash(key[x]) % n else 0
  }

  /** The items of s that belong to bucket j of n, in order. */
  function Residents(s: seq<Ptr>, key: map<Ptr, Key>, hash: HashFunction, n: nat, j: nat): seq<Ptr>
    requires n > 0
  {
    if s == [] then []
    else if Slot(key, hash, n, s[0]) == j then [s[0]] + Residents(s[1..], key, hash, n, j)
    else Residents(s[1..], key, hash, n, j)
  }

  function Reverse(s: seq<Ptr>): (r: seq<Ptr>)
    ensures |r| == |s|
  {
    if s == [] then [] else Reverse(s[1..]) + [s[0]]
  }

  function Counts(chains: seq<seq<Ptr>>): (r: seq<nat>)
    ensures |r| == |chains|
  {
    seq(|chains|, j requires 0 <= j < |chains| => |chains[j]|)
  }

  function CeilDiv(n: nat, b: nat): nat
    requires b > 0
  {
    n / b + if n % b != 0 then 1 else 0
  }

  /** Bucket j of the doubled array is fed from bucket j mod n alone, back to front. */
  function Spread(chains: seq<seq<Ptr>>, key: map<Ptr, Key>, hash: HashFunction): (r: seq<seq<Ptr>>)
    requires |chains| > 0
    ensures |r| == 2 * |chains|
  {
    var n := |chains|;
    seq(2 * n, j requires 0 <= j < 2 * n => Reverse(Residents(chains[j % n], key, hash, 2 * n, j)))
  }

  function Expand(t: Table, hash: HashFunction): Table
    requires |t.chains| > 0
  {
    var chains := Spread(t.chains, t.key, hash);
    var ideal := CeilDiv(|t.order|, |chains|);
    var nonideal := Excess(Counts(chains), ideal);
    var ineff := if nonideal > |t.order| / 2 then t.ineff + 1 else 0;
    Table(t.order, t.key, chains, if ideal > 0 then Mults(Counts(chains), ideal) else seq(|chains|, _ => 0),
          t.log2 + 1, ideal, nonideal, ineff, t.noexpand || ineff > 1)
  }

  /** The new item goes to the end of the app order and to the front of its chain. */
  function Insertion(t: Table, x: Ptr, k: Key, hash: HashFunction): Table
    requires |t.chains| > 0
  {
    var j := hash(k) % |t.chains|;
    t.(order := t.order + [x], key := t.key[x := k], chains := t.chains[j := [x] + t.chains[j]])
  }

  predicate Overfull(t: Table, j: nat)
    requires j < |t.chains| == |t.mult|
  {
    |t.chains[j]| >= (t.mult[j] + 1) * THRESHOLD && !t.noexpand
  }

  function Add(t: Table, x: Ptr, k: Key, hash: HashFunction): Table
    requires |t.chains| == |t.mult| > 0
  {
    var t1 := Insertion(t, x, k, hash);
    if Overfull(t1, hash(k) % |t.chains|) then Expand(t1, hash) else t1
  }

  function Remove(s: seq<Ptr>, x: Ptr): seq<Ptr> {
    if s == [] then [] else if s[0] == x then Remove(s[1..], x) else [s[0]] + Remove(s[1..], x)
  }

  /** Deleting the only item frees the table. */
  function Delete(t: Table, x: Ptr, hash: HashFunction): Table
    requires |t.chains| > 0
  {
    if t.order == [x] then Made(t.key)
    else
      var j := Slot(t.key, hash, |t.chains|, x);
      t.(order := Remove(t.order, x), chains := t.chains[j := Remove(t.chains[j], x)])
  }

  function Sorting(t: Table, cmp: Compare<Ptr>): Table {
    t.(order := BottomUp(t.order, 1, cmp))
  }

  /** The first item in the chain with key k. */
  function FirstMatch(s: seq<Ptr>, key: map<Ptr, Key>, k: Key): Ptr {
    if s == [] then NULL
    else if s[0] in key && key[s[0]] == k then s[0]
    else FirstMatch(s[1..], key, k)
  }

  function Find(t: Table, k: Key, hash: HashFunction): Ptr
    requires |t.chains| > 0
  {
    FirstMatch(t.chains[hash(k) % |t.chains|], t.key, k)
  }

  // ---- The invariant ----

  ghost predicate Dims(t: Table) {
    |t.chains| == |t.mult| == Pow2(t.log2)
  }

  /** Bucket j holds each stored item that belongs there exactly once, and nothing else. */
  ghost predicate Holds(t: Table, hash: HashFunction, j: nat)
    requires j < |t.chains|
  {
    forall x: Ptr {:trigger multiset(t.chains[j])[x]} ::
      multiset(t.chains[j])[x] == if Slot(t.key, hash, |t.chains|, x) == j then multiset(t.order)[x] else 0
  }

  ghost predicate Stored(t: Table, hash: HashFunction) {
    && Nodes(t.order)
    && (forall x | x in t.order :: x in t.key)
    && (forall j | 0 <= j < |t.chains| :: Holds(t, hash, j))
  }

  ghost predicate PolicyKept(t: Table) {
    && (!t.noexpand ==> Bounded(Counts(t.chains), t.mult, t.ideal))
    && (t.noexpand <==> t.ineff > 1)
    && t.ineff <= 2
  }

  ghost predicate WF(t: Table, hash: HashFunction) {
    Dims(t) && Stored(t, hash) && PolicyKept(t)
  }

  // ---- Counting ----

  lemma {:induction false} ResidentsCount(s: seq<Ptr>, key: map<Ptr, Key>, hash: HashFunction, n: nat, j: nat, x: Ptr)
    requires n > 0
    ensures multiset(Residents(s, key, hash, n, j))[x] == if Slot(key, hash, n, x) == j then multiset(s)[x] else 0
  {
    if s != [] {
      ResidentsCount(s[1..], key, hash, n, j, x);
      assert s == [s[0]] + s[1..];
    }
  }

  lemma {:induction false} ReverseCount(s: seq<Ptr>)
    ensures multiset(Reverse(s)) == multiset(s)
  {
    if s != [] {
      ReverseCount(s[1..]);
      assert s == [s[0]] + s[1..];
    }
  }

  lemma {:induction false} RemoveCount(s: seq<Ptr>, x: Ptr, y: Ptr)
    ensures multiset(Remove(s, x))[y] == if x == y then 0 else multiset(s)[y]
  {
    if s != [] {
      RemoveCount(s[1..], x, y);
      assert s == [s[0]] + s[1..];
    }
  }

  /** Every chain is a permutation of the residents of the app order. */
  lemma HoldsIsPermutation(t: Table, hash: HashFunction, j: nat)
    requires j < |t.chains| && Holds(t, hash, j)
    ensures multiset(t.chains[j]) == multiset(Residents(t.order, t.key, hash, |t.chains|, j))
    ensures |t.chains[j]| == |Residents(t.order, t.key, hash, |t.chains|, j)|
  {
    var r: seq<Ptr> := Residents(t.order, t.key, hash, |t.chains|, j);
    forall x: Ptr ensures multiset(t.chains[j])[x] == multiset(r)[x] {
      ResidentsCount(t.order, t.key, hash, |t.chains|, j, x);
    }
    assert |multiset(r)| == |r| && |multiset(t.chains[j])| == |t.chains[j]|;
  }

  function ResidentCounts(s: seq<Ptr>, key: map<Ptr, Key>, hash: HashFunction, n: nat): (r: seq<nat>)
    requires n > 0
    ensures |r| == n
  {
    seq(n, j requires 0 <= j < n => |Residents(s, key, hash, n, j)|)
  }

  lemma {:induction false} ResidentsCover(s: seq<Ptr>, key: map<Ptr, Key>, hash: HashFunction, n: nat)
    requires n > 0
    ensures Sum(ResidentCounts(s, key, hash, n)) == |s|
  {
    var c := ResidentCounts(s, key, hash, n);
    if s == [] {
      SumZeros(c);
    } else {
      var c1 := ResidentCounts(s[1..], key, hash, n);
      var i := Slot(key, hash, n, s[0]);
      ResidentsCover(s[1..], key, hash, n);
      SumUpdate(c1, i, c1[i] + 1);
      assert c == c1[i := c1[i] + 1];
    }
  }

  /** The bucket counts add up to num_items. */
  lemma CountsCover(t: Table, hash: HashFunction)
    requires |t.chains| > 0 && forall j | 0 <= j < |t.chains| :: Holds(t, hash, j)
    ensures Sum(Counts(t.chains)) == |t.order|
  {
    hide Holds;
    ResidentsCover(t.order, t.key, hash, |t.chains|);
    forall j | 0 <= j < |t.chains|
      ensures |t.chains[j]| == |Residents(t.order, t.key, hash, |t.chains|, j)|
    {
      HoldsIsPermutation(t, hash, j);
    }
    assert Counts(t.chains) == ResidentCounts(t.order, t.key, hash, |t.chains|);
  }

  lemma InChain(t: Table, hash: HashFunction, j: nat, x: Ptr)
    requires j < |t.chains| && Holds(t, hash, j)
    ensures x in t.chains[j] <==> x in t.order && Slot(t.key, hash, |t.chains|, x) == j
  {
    assert x in t.chains[j] <==> multiset(t.chains[j])[x] > 0;
    assert x in t.order <==> multiset(t.order)[x] > 0;
  }

  lemma ChainNodes(t: Table, hash: HashFunction, j: nat)
    requires j < |t.chains| && Holds(t, hash, j) && Nodes(t.order)
    ensures Nodes(t.chains[j])
  {
    InChain(t, hash, j, NULL);
    assert NULL in multiset(t.order) <==> NULL in t.order;
    forall x: Ptr ensures multiset(t.chains[j])[x] <= 1 { assert multiset(t.order)[x] <= 1; }
    assert NULL in multiset(t.chains[j]) <==> NULL in t.chains[j];
  }

  // ---- What the operations keep ----

  lemma MadeWF(key: map<Ptr, Key>, hash: HashFunction)
    ensures WF(Made(key), hash)
  {
    var t := Made(key);
    SumZeros(t.mult);
    forall j | 0 <= j < |t.chains| ensures Holds(t, hash, j) { assert t.chains[j] == []; }
    assert AllWithin(Counts(t.chains), t.mult);
  }

  lemma InsertionHolds(t: Table, x: Ptr, k: Key, hash: HashFunction, j: nat)
    requires j < |t.chains| && Holds(t, hash, j) && x !in t.order
    ensures Holds(Insertion(t, x, k, hash), hash, j)
  {
    var t1 := Insertion(t, x, k, hash);
    var n := |t.chains|;
    forall y: Ptr
      ensures multiset(t1.chains[j])[y] == if Slot(t1.key, hash, n, y) == j then multiset(t1.order)[y] else 0
    {
      assert multiset(t1.order)[y] == multiset(t.order)[y] + if x == y then 1 else 0;
      assert multiset([x] + t.chains[j])[y] == multiset(t.chains[j])[y] + if x == y then 1 else 0;
      assert multiset(t.order)[x] == 0;
    }
  }

  lemma InsertionStored(t: Table, x: Ptr, k: Key, hash: HashFunction)
    requires |t.chains| > 0 && Stored(t, hash) && x != NULL && x !in t.order
    ensures Stored(Insertion(t, x, k, hash), hash)
  {
    hide Holds;
    var t1 := Insertion(t, x, k, hash);
    forall j | 0 <= j < |t1.chains| ensures Holds(t1, hash, j) { InsertionHolds(t, x, k, hash, j); }
    assert multiset(t1.order) == multiset(t.order) + multiset{x};
    assert multiset(t.order)[x] == 0;
  }

  lemma DeleteHolds(t: Table, x: Ptr, hash: HashFunction, j: nat)
    requires j < |t.chains| && Holds(t, hash, j) && t.order != [x]
    ensures Holds(Delete(t, x, hash), hash, j)
  {
    var t1 := Delete(t, x, hash);
    var n := |t.chains|;
    forall y: Ptr
      ensures multiset(t1.chains[j])[y] == if Slot(t1.key, hash, n, y) == j then multiset(t1.order)[y] else 0
    {
      RemoveCount(t.order, x, y);
      RemoveCount(t.chains[j], x, y);
      assert multiset(t.chains[j])[y] == if Slot(t.key, hash, n, y) == j then multiset(t.order)[y] else 0;
    }
  }

  lemma InRemove(s: seq<Ptr>, x: Ptr, y: Ptr)
    ensures y in Remove(s, x) <==> y in s && y != x
  {
    RemoveCount(s, x, y);
    assert y in s <==> multiset(s)[y] > 0;
    assert y in Remove(s, x) <==> multiset(Remove(s, x))[y] > 0;
  }

  lemma DeleteStored(t: Table, x: Ptr, hash: HashFunction)
    requires |t.chains| > 0 && Stored(t, hash) && t.order != [x]
    ensures Stored(Delete(t, x, hash), hash)
  {
    hide Holds;
    var t1 := Delete(t, x, hash);
    forall j | 0 <= j < |t1.chains| ensures Holds(t1, hash, j) { DeleteHolds(t, x, hash, j); }
    forall y: Ptr ensures multiset(t1.order)[y] <= multiset(t.order)[y] { RemoveCount(t.order, x, y); }
    forall y | y in t1.order ensures y in t1.key { InRemove(t.order, x, y); }
  }

  lemma SortingStored(t: Table, cmp: Compare<Ptr>, hash: HashFunction)
    requires Stored(t, hash)
    ensures Stored(Sorting(t, cmp), hash)
  {
    var t1 := Sorting(t, cmp);
    BottomUpIsPermutation(t.order, 1, cmp);
    forall j | 0 <= j < |t1.chains| ensures Holds(t1, hash, j) { assert Holds(t, hash, j); }
    forall x | x in t1.order ensures x in t1.key { assert x in multiset(t1.order); }
  }

  // ---- Expansion ----

  lemma SplitRemainder(h: nat, n: nat, d: nat, q: nat, r: nat)
    requires n > 0 && d == 2 * n && h == q * d + r && r < d
    ensures r % n == h % n && (r == h % n || r == h % n + n)
  {
    MulDouble(q, n);
    if r < n {
      DivModUnique(h, n, 2 * q, r);
      DivModUnique(r, n, 0, r);
    } else {
      MulSucc(2 * q, n);
      DivModUnique(h, n, 2 * q + 1, r - n);
      DivModUnique(r, n, 1, r - n);
    }
  }

  lemma Euclid(h: nat, d: nat) returns (q: nat, r: nat)
    requires d > 0
    ensures h == q * d + r && r < d && r == h % d
  {
    DivMod(h, d);
    q, r := h / d, h % d;
  }

  lemma RemainderOfDouble(h: nat, n: nat, d: nat)
    requires n > 0 && d == 2 * n
    ensures (h % d) % n == h % n
    ensures h % d == h % n || h % d == h % n + n
  {
    var q, r := Euclid(h, d);
    SplitRemainder(h, n, d, q, r);
  }

  lemma Refines2(h: nat, n: nat)
    requires n > 0
    ensures (h % (2 * n)) % n == h % n
    ensures h % (2 * n) == h % n || h % (2 * n) == h % n + n
  {
    RemainderOfDouble(h, n, 2 * n);
  }

  /** An item of old bucket i belongs to new bucket i or i + num_buckets. */
  lemma SlotSplits(key: map<Ptr, Key>, hash: HashFunction, n: nat, x: Ptr)
    requires n > 0
    ensures Slot(key, hash, 2 * n, x) % n == Slot(key, hash, n, x)
    ensures var i := Slot(key, hash, n, x); Slot(key, hash, 2 * n, x) in {i, i + n}
  {
    if x in key { Refines2(hash(key[x]), n); }
  }

  lemma SpreadCount(chains: seq<seq<Ptr>>, key: map<Ptr, Key>, hash: HashFunction, j: nat, x: Ptr)
    requires j < 2 * |chains|
    ensures multiset(Spread(chains, key, hash)[j])[x] ==
            if Slot(key, hash, 2 * |chains|, x) == j then multiset(chains[j % |chains|])[x] else 0
  {
    var n := |chains|;
    ReverseCount(Residents(chains[j % n], key, hash, 2 * n, j));
    ResidentsCount(chains[j % n], key, hash, 2 * n, j, x);
  }

  lemma ExpandHolds(t: Table, hash: HashFunction, j: nat)
    requires |t.chains| > 0 && Stored(t, hash) && j < 2 * |t.chains|
    ensures Holds(Expand(t, hash), hash, j)
  {
    hide Slot, Spread, Nodes, Mults, Excess, CeilDiv;
    var n := |t.chains|;
    var t1 := Expand(t, hash);
    forall x: Ptr
      ensures multiset(t1.chains[j])[x] == if Slot(t1.key, hash, 2 * n, x) == j then multiset(t1.order)[x] else 0
    {
      SpreadCount(t.chains, t.key, hash, j, x);
      SlotSplits(t.key, hash, n, x);
      assert Holds(t, hash, j % n);
      assert multiset(t.chains[j % n])[x] == if Slot(t.key, hash, n, x) == j % n then multiset(t.order)[x] else 0;
    }
  }

  lemma ExpandShape(t: Table, hash: HashFunction)
    requires |t.chains| > 0
    ensures var t1 := Expand(t, hash);
            t1.order == t.order && t1.key == t.key && |t1.chains| == |t1.mult| == 2 * |t.chains|
  {
  }

  lemma ExpandStored(t: Table, hash: HashFunction)
    requires |t.chains| > 0 && Stored(t, hash)
    ensures Stored(Expand(t, hash), hash)
  {
    hide Holds, Expand;
    ExpandShape(t, hash);
    forall j | 0 <= j < 2 * |t.chains| ensures Holds(Expand(t, hash), hash, j) { ExpandHolds(t, hash, j); }
  }

  /** No item is lost, duplicated or moved anywhere but to buckets i and i + num_buckets. */
  lemma ExpandSplitsBucket(t: Table, hash: HashFunction, i: nat)
    requires |t.chains| > 0 && Stored(t, hash) && i < |t.chains|
    ensures var c, n := Expand(t, hash).chains, |t.chains|;
            |c| == 2 * n && multiset(c[i]) + multiset(c[i + n]) == multiset(t.chains[i])
  {
    hide Slot, Spread, Nodes, Mults, Excess, CeilDiv;
    var c, n := Expand(t, hash).chains, |t.chains|;
    forall x: Ptr ensures multiset(c[i])[x] + multiset(c[i + n])[x] == multiset(t.chains[i])[x] {
      SpreadCount(t.chains, t.key, hash, i, x);
      SpreadCount(t.chains, t.key, hash, i + n, x);
      SlotSplits(t.key, hash, n, x);
      assert (i + n) % n == i by { DivModUnique(i + n, n, 1, i); }
      assert i % n == i by { DivModUnique(i, n, 0, i); }
      assert Holds(t, hash, i);
    }
  }

  /** The three figures an expansion stores, over the chains it has built. */
  lemma ExpandBookkeeping(t: Table, hash: HashFunction)
    requires |t.chains| > 0 && t.order != []
    ensures var t1 := Expand(t, hash);
            && IsCeil(|t.order|, |t1.chains|, t1.ideal) && t1.ideal > 0
            && t1.nonideal == Excess(Counts(t1.chains), t1.ideal)
            && |t1.mult| == |t1.chains|
            && forall j | 0 <= j < |t1.mult| :: t1.mult[j] == if |t1.chains[j]| > t1.ideal then |t1.chains[j]| / t1.ideal else 0
  {
    hide IsCeil, Spread, Excess;
    CeilByQuotient(|t.order|, 2 * |t.chains|);
    CeilPositive(|t.order|, 2 * |t.chains|, CeilDiv(|t.order|, 2 * |t.chains|));
  }

  lemma ExpandPolicy(t: Table, hash: HashFunction)
    requires Dims(t) && Stored(t, hash) && t.order != [] && !t.noexpand && t.ineff <= 1
    requires |t.order| <= 2 * THRESHOLD * |t.chains|
    ensures PolicyKept(Expand(t, hash)) && Dims(Expand(t, hash))
  {
    hide IsCeil, Spread, Excess, Mults, Stored, Bounded, Holds;
    var t1 := Expand(t, hash);
    ExpandStored(t, hash);
    StoredGives(t1, hash);
    CountsCover(t1, hash);
    CeilByQuotient(|t.order|, 2 * |t.chains|);
    ExpansionRebounds(Counts(t1.chains), |t.order|, t1.ideal);
  }

  lemma StoredGives(t: Table, hash: HashFunction)
    requires Stored(t, hash)
    ensures Nodes(t.order)
    ensures forall x | x in t.order :: x in t.key
    ensures forall j | 0 <= j < |t.chains| :: Holds(t, hash, j)
  {
  }

  /** HASH_ADD keeps everything, whether or not it expands. */
  lemma AddWF(t: Table, x: Ptr, k: Key, hash: HashFunction)
    requires WF(t, hash) && x != NULL && x !in t.order
    ensures WF(Add(t, x, k, hash), hash)
  {
    hide Stored, Holds, Expand, Bounded;
    var t1 := Insertion(t, x, k, hash);
    var j := hash(k) % |t.chains|;
    InsertionStored(t, x, k, hash);
    StoredGives(t, hash);
    CountsCover(t, hash);
    if Overfull(t1, j) {
      FewItems(Counts(t.chains), t.mult, t.ideal);
      ExpandPolicy(t1, hash);
      ExpandStored(t1, hash);
    } else if !t.noexpand {
      var c := Counts(t.chains);
      GrowthStaysBounded(c, t.mult, t.ideal, j);
      assert Counts(t1.chains) == c[j := c[j] + 1];
    }
  }

  lemma {:induction false} RemoveLength(s: seq<Ptr>, x: Ptr)
    requires multiset(s)[x] <= 1
    ensures |Remove(s, x)| == |s| - multiset(s)[x]
  {
    if s != [] {
      assert s == [s[0]] + s[1..];
      if s[0] == x { RemoveAbsent(s[1..], x); } else { RemoveLength(s[1..], x); }
    }
  }

  lemma {:induction false} RemoveAbsent(s: seq<Ptr>, x: Ptr)
    requires multiset(s)[x] == 0
    ensures Remove(s, x) == s
  {
    if s != [] {
      assert s == [s[0]] + s[1..];
      RemoveAbsent(s[1..], x);
    }
  }

  /** HASH_DELETE keeps everything. */
  lemma DeleteWF(t: Table, x: Ptr, hash: HashFunction)
    requires WF(t, hash) && x in t.order
    ensures WF(Delete(t, x, hash), hash)
  {
    if t.order == [x] {
      MadeWF(t.key, hash);
    } else {
      hide Stored, Bounded;
      var t1 := Delete(t, x, hash);
      var j := Slot(t.key, hash, |t.chains|, x);
      DeleteStored(t, x, hash);
      StoredGives(t, hash);
      InChain(t, hash, j, x);
      assert multiset(t.order)[x] == 1;
      RemoveLength(t.chains[j], x);
      if !t.noexpand {
        var c := Counts(t.chains);
        RemovalStaysBounded(c, t.mult, t.ideal, j);
        assert Counts(t1.chains) == c[j := c[j] - 1];
      }
    }
  }

  lemma SortingWF(t: Table, cmp: Compare<Ptr>, hash: HashFunction)
    requires WF(t, hash)
    ensures WF(Sorting(t, cmp), hash)
  {
    hide Stored, Bounded;
    SortingStored(t, cmp, hash);
  }
}
