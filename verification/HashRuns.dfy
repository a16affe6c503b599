/** What lookups and whole runs of a uthash table promise: HASH_FIND is exact, an expansion
    keeps its answers (exactly) where keys are distinct, every run keeps the chain bound, and
    with distinct keys a run cannot be told from a plain map and an insertion-ordered list. */
module HashRuns {
  import opened Pointers
  import opened HashPolicy
  import opened HashSpec
  import opened SortSpec

  predicate Matches(key: map<Ptr, Key>, k: Key, x: Ptr) { x in key && key[x] == k }

  // ---- HASH_FIND ----

  lemma {:induction false} FirstMatchExact(s: seq<Ptr>, key: map<Ptr, Key>, k: Key)
    requires NULL !in s
    ensures var r := FirstMatch(s, key, k);
            && (r != NULL ==> r in s && Matches(key, k, r))
            && (r == NULL ==> forall x | x in s :: !Matches(key, k, x))
  {
    if s != [] && !Matches(key, k, s[0]) {
      FirstMatchExact(s[1..], key, k);
      forall x | x in s && FirstMatch(s, key, k) == NULL ensures !Matches(key, k, x) {
        assert x == s[0] || x in s[1..];
      }
    }
  }

  /** HASH_FIND returns a stored item with the key, or NULL when there is none. */
  lemma FindExact(t: Table, k: Key, hash: HashFunction)
    requires WF(t, hash)
    ensures var r := Find(t, k, hash);
            && (r != NULL ==> r in t.order && Matches(t.key, k, r))
            && (r == NULL <==> forall x | x in t.order :: !Matches(t.key, k, x))
  {
    hide Holds, PolicyKept, FirstMatch;
    var n := |t.chains|;
    var j := hash(k) % n;
    StoredGives(t, hash);
    ChainNodes(t, hash, j);
    NodesDistinct(t.chains[j]);
    NodesDistinct(t.order);
    FirstMatchExact(t.chains[j], t.key, k);
    forall x: Ptr
      ensures x in t.chains[j] ==> x in t.order
      ensures x in t.order && Matches(t.key, k, x) ==> x in t.chains[j]
    {
      InChain(t, hash, j, x);
    }
  }

  /** At most one stored item has key k. */
  ghost predicate AtMostOne(t: Table, k: Key) {
    forall x, y | x in t.order && y in t.order && Matches(t.key, k, x) && Matches(t.key, k, y) :: x == y
  }

  // ---- Lookups across an expansion ----

  function Hits(s: seq<Ptr>, key: map<Ptr, Key>, k: Key): seq<Ptr> {
    if s == [] then []
    else if Matches(key, k, s[0]) then [s[0]] + Hits(s[1..], key, k)
    else Hits(s[1..], key, k)
  }

  lemma {:induction false} HitsConcat(a: seq<Ptr>, b: seq<Ptr>, key: map<Ptr, Key>, k: Key)
    ensures Hits(a + b, key, k) == Hits(a, key, k) + Hits(b, key, k)
  {
    if a == [] {
      assert a + b == b;
    } else {
      HitsConcat(a[1..], b, key, k);
      assert (a + b)[1..] == a[1..] + b;
    }
  }

  lemma {:induction false} FirstIsHead(s: seq<Ptr>, key: map<Ptr, Key>, k: Key)
    ensures FirstMatch(s, key, k) == Head(Hits(s, key, k))
  {
    if s != [] { FirstIsHead(s[1..], key, k); }
  }

  lemma {:induction false} HitsOfReverse(s: seq<Ptr>, key: map<Ptr, Key>, k: Key)
    ensures Hits(Reverse(s), key, k) == Reverse(Hits(s, key, k))
  {
    if s != [] {
      HitsOfReverse(s[1..], key, k);
      HitsConcat(Reverse(s[1..]), [s[0]], key, k);
      assert Hits([s[0]], key, k) == if Matches(key, k, s[0]) then [s[0]] else [];
      if Matches(key, k, s[0]) {
        assert Hits(s, key, k)[1..] == Hits(s[1..], key, k);
      }
    }
  }

  /** The items with key k all belong to the bucket that k selects. */
  lemma {:induction false} HitsOfResidents(s: seq<Ptr>, key: map<Ptr, Key>, hash: HashFunction, n: nat, k: Key)
    requires n > 0
    ensures Hits(Residents(s, key, hash, n, hash(k) % n), key, k) == Hits(s, key, k)
  {
    if s != [] {
      HitsOfResidents(s[1..], key, hash, n, k);
      var r := Residents(s, key, hash, n, hash(k) % n);
      if Slot(key, hash, n, s[0]) == hash(k) % n {
        assert r[1..] == Residents(s[1..], key, hash, n, hash(k) % n);
      }
    }
  }

  lemma {:induction false} HitsCount(s: seq<Ptr>, key: map<Ptr, Key>, k: Key, x: Ptr)
    ensures multiset(Hits(s, key, k))[x] == if Matches(key, k, x) then multiset(s)[x] else 0
  {
    if s != [] {
      HitsCount(s[1..], key, k, x);
      assert s == [s[0]] + s[1..];
    }
  }

  lemma HitsNodes(s: seq<Ptr>, key: map<Ptr, Key>, k: Key)
    requires Nodes(s)
    ensures Nodes(Hits(s, key, k))
  {
    forall x: Ptr ensures multiset(Hits(s, key, k))[x] <= multiset(s)[x] { HitsCount(s, key, k, x); }
  }

  lemma InHits(s: seq<Ptr>, key: map<Ptr, Key>, k: Key, x: Ptr)
    ensures x in Hits(s, key, k) <==> x in s && Matches(key, k, x)
  {
    HitsCount(s, key, k, x);
    assert x in s <==> multiset(s)[x] > 0;
    assert x in Hits(s, key, k) <==> multiset(Hits(s, key, k))[x] > 0;
  }

  lemma {:induction false} ReverseEnds(s: seq<Ptr>)
    ensures Head(Reverse(s)) == Last(s)
  {
    if |s| > 1 {
      ReverseEnds(s[1..]);
    }
  }

  lemma EndsAgree(s: seq<Ptr>)
    requires Nodes(s)
    ensures Head(s) == Last(s) <==> |s| <= 1
  {
    NodesDistinct(s);
  }

  /** Before an expansion a lookup takes the front match of a chain, after it the back one. */
  lemma ExpandedFind(t: Table, k: Key, hash: HashFunction)
    requires |t.chains| > 0
    ensures var hits := Hits(t.chains[hash(k) % |t.chains|], t.key, k);
            Find(t, k, hash) == Head(hits) && Find(Expand(t, hash), k, hash) == Last(hits)
  {
    hide FirstMatch, Hits, Residents, Reverse, Excess, Mults, CeilDiv;
    var n := |t.chains|;
    var s := t.chains[hash(k) % n];
    var j := hash(k) % (2 * n);
    var r := Residents(s, t.key, hash, 2 * n, j);
    Refines2(hash(k), n);
    FirstIsHead(s, t.key, k);
    assert Expand(t, hash).chains[j] == Reverse(r);
    FirstIsHead(Reverse(r), t.key, k);
    HitsOfReverse(r, t.key, k);
    HitsOfResidents(s, t.key, hash, 2 * n, k);
    ReverseEnds(Hits(r, t.key, k));
  }

  lemma AtMostOneHit(t: Table, k: Key, hash: HashFunction)
    requires WF(t, hash)
    ensures |Hits(t.chains[hash(k) % |t.chains|], t.key, k)| <= 1 <==> AtMostOne(t, k)
    ensures Nodes(Hits(t.chains[hash(k) % |t.chains|], t.key, k))
  {
    hide Holds, PolicyKept, Nodes, Hits;
    var j := hash(k) % |t.chains|;
    var hits: seq<Ptr> := Hits(t.chains[j], t.key, k);
    StoredGives(t, hash);
    ChainNodes(t, hash, j);
    HitsNodes(t.chains[j], t.key, k);
    NodesDistinct(hits);
    forall x: Ptr ensures x in hits <==> x in t.order && Matches(t.key, k, x) {
      InHits(t.chains[j], t.key, k, x);
      InChain(t, hash, j, x);
    }
    if |hits| > 1 {
      assert hits[0] in hits && hits[1] in hits && hits[0] != hits[1];
    }
  }

  /** An expansion keeps the answer for key k exactly when no two stored items share k:
      the reversal of the chains hands the lookup the oldest of several instead. */
  lemma ExpansionKeepsFind(t: Table, k: Key, hash: HashFunction)
    requires WF(t, hash)
    ensures Find(Expand(t, hash), k, hash) == Find(t, k, hash) <==> AtMostOne(t, k)
  {
    hide Find, Expand, Hits, AtMostOne, WF;
    assert |t.chains| > 0 by { WFSize(t, hash); }
    ExpandedFind(t, k, hash);
    AtMostOneHit(t, k, hash);
    EndsAgree(Hits(t.chains[hash(k) % |t.chains|], t.key, k));
  }

  lemma TwoOfOneKey(k: Key, hash: HashFunction)
    ensures var t := Add(Add(Made(map[]), 1, k, hash), 2, k, hash);
            |t.chains| == 32 && t.chains[hash(k) % 32] == [2, 1] && t.order == [1, 2] && t.key == map[1 := k, 2 := k]
  {
    assert Pow2(INITIAL_LOG2) == 32;
    var t0 := Made(map[]);
    var t1 := Add(t0, 1, k, hash);
    assert t1 == Insertion(t0, 1, k, hash);
    assert t1.chains[hash(k) % 32] == [1];
  }

  lemma TwoHits(s: seq<Ptr>, key: map<Ptr, Key>, k: Key)
    requires s == [2, 1] && key == map[1 := k, 2 := k]
    ensures Hits(s, key, k) == s
  {
    assert s[1..] == [1] && s[1..][1..] == [];
    assert Hits(s[1..], key, k) == [1] + Hits(s[1..][1..], key, k);
  }

  /** A table with two items of one key, whose lookup an expansion turns from the newer to the older. */
  lemma SharedKeyWitness(k: Key, hash: HashFunction)
    ensures var t := Add(Add(Made(map[]), 1, k, hash), 2, k, hash);
            WF(t, hash) && !AtMostOne(t, k) && |t.chains| > 0 && Find(t, k, hash) == 2 && Find(Expand(t, hash), k, hash) == 1
  {
    hide WF, Add, Find, Expand, Hits;
    MadeWF(map[], hash);
    AddWF(Made(map[]), 1, k, hash);
    var t1 := Add(Made(map[]), 1, k, hash);
    AddShape(Made(map[]), 1, k, hash);
    WFSize(t1, hash);
    AddWF(t1, 2, k, hash);
    var t := Add(t1, 2, k, hash);
    TwoOfOneKey(k, hash);
    TwoHits(t.chains[hash(k) % 32], t.key, k);
    ExpandedFind(t, k, hash);
    assert 1 in t.order && 2 in t.order && Matches(t.key, k, 1) && Matches(t.key, k, 2);
  }

  lemma WFSize(t: Table, hash: HashFunction)
    requires WF(t, hash)
    ensures |t.chains| == |t.mult| == Pow2(t.log2) > 0
  {
  }

  // ---- Runs ----

  datatype Op = AddItem(x: Ptr, k: Key) | DeleteItem(x: Ptr) | SortItems(cmp: Compare<Ptr>)

  /** What the macros demand: an added element is not stored yet, a deleted one is. */
  ghost predicate Legal(t: Table, op: Op) {
    match op
    case AddItem(x, k) => x != NULL && x !in t.order
    case DeleteItem(x) => x in t.order
    case SortItems(cmp) => true
  }

  function Apply(t: Table, op: Op, hash: HashFunction): Table
    requires |t.chains| == |t.mult| > 0
  {
    match op
    case AddItem(x, k) => Add(t, x, k, hash)
    case DeleteItem(x) => Delete(t, x, hash)
    case SortItems(cmp) => Sorting(t, cmp)
  }

  ghost predicate IsRun(states: seq<Table>, ops: seq<Op>, hash: HashFunction) {
    && |states| == |ops| + 1
    && states[0] == Made(map[])
    && forall i | 0 <= i < |ops| ::
         && |states[i].chains| == |states[i].mult| > 0
         && Legal(states[i], ops[i])
         && states[i + 1] == Apply(states[i], ops[i], hash)
  }

  lemma ApplyWF(t: Table, op: Op, hash: HashFunction)
    requires WF(t, hash) && Legal(t, op)
    ensures |t.chains| == |t.mult| > 0 && WF(Apply(t, op, hash), hash)
  {
    hide WF, Add, Delete, Sorting;
    WFSize(t, hash);
    match op
    case AddItem(x, k) => AddWF(t, x, k, hash);
    case DeleteItem(x) => DeleteWF(t, x, hash);
    case SortItems(cmp) => SortingWF(t, cmp, hash);
  }

  /** Every state of every run, for every hash function, satisfies the invariant. */
  lemma {:induction false} RunWF(states: seq<Table>, ops: seq<Op>, hash: HashFunction, i: nat)
    requires IsRun(states, ops, hash) && i <= |ops|
    ensures WF(states[i], hash)
  {
    hide WF, Apply, Legal;
    if i == 0 {
      MadeWF(map[], hash);
    } else {
      RunWF(states, ops, hash, i - 1);
      assert Legal(states[i - 1], ops[i - 1]) && states[i - 1 + 1] == Apply(states[i - 1], ops[i - 1], hash);
      ApplyWF(states[i - 1], ops[i - 1], hash);
    }
  }

  /** The performance claim: until two ineffective expansions in a row switch growth off,
      every chain is bounded by its multiple of 10, and the table by 20 items per bucket. */
  lemma BoundedChains(states: seq<Table>, ops: seq<Op>, hash: HashFunction, i: nat)
    requires IsRun(states, ops, hash) && i <= |ops|
    ensures var t := states[i];
            && |t.chains| == |t.mult| == Pow2(t.log2)
            && Sum(Counts(t.chains)) == |t.order|
            && (t.noexpand <==> t.ineff > 1)
            && (!t.noexpand ==>
                  && (forall j | 0 <= j < |t.chains| ::
                        if t.mult[j] == 0 then |t.chains[j]| <= 10 else |t.chains[j]| <= 10 * (t.mult[j] + 1) - 1)
                  && Sum(t.mult) <= |t.chains|
                  && t.ideal <= 10
                  && |t.order| < 20 * |t.chains|)
  {
    hide Holds, Sum;
    var t := states[i];
    RunWF(states, ops, hash, i);
    StoredGives(t, hash);
    CountsCover(t, hash);
    if !t.noexpand {
      FewItems(Counts(t.chains), t.mult, t.ideal);
      forall j | 0 <= j < |t.chains|
        ensures if t.mult[j] == 0 then |t.chains[j]| <= 10 else |t.chains[j]| <= 10 * (t.mult[j] + 1) - 1
      {
        assert Within(Counts(t.chains)[j], t.mult[j]);
      }
    }
  }

  // ---- The plain map ----

  /** The reference: a map from keys to items, and the items in order of insertion. */
  datatype Plain = Plain(lookup: map<Key, Ptr>, order: seq<Ptr>)

  ghost function PlainApply(p: Plain, op: Op): Plain {
    match op
    case AddItem(x, k) => Plain(p.lookup[k := x], p.order + [x])
    case DeleteItem(x) => Plain(map k | k in p.lookup && p.lookup[k] != x :: p.lookup[k], Remove(p.order, x))
    case SortItems(cmp) => Plain(p.lookup, InsertionSort(p.order, cmp))
  }

  /** Keys are not added twice, and sorts are given a total preorder. */
  ghost predicate Proper(p: Plain, op: Op) {
    match op
    case AddItem(x, k) => k !in p.lookup
    case DeleteItem(x) => true
    case SortItems(cmp) => TotalPreorder(cmp)
  }

  ghost function PlainAfter(ops: seq<Op>): Plain {
    if ops == [] then Plain(map[], []) else PlainApply(PlainAfter(ops[..|ops| - 1]), ops[|ops| - 1])
  }

  ghost predicate Represents(t: Table, p: Plain) {
    && t.order == p.order
    && (forall x | x in t.order :: x in t.key && t.key[x] in p.lookup && p.lookup[t.key[x]] == x)
    && (forall k | k in p.lookup :: p.lookup[k] in t.order && Matches(t.key, k, p.lookup[k]))
  }

  lemma RepresentsFind(t: Table, p: Plain, hash: HashFunction, k: Key)
    requires WF(t, hash) && Represents(t, p)
    ensures Find(t, k, hash) == if k in p.lookup then p.lookup[k] else NULL
  {
    hide Find, WF;
    WFSize(t, hash);
    FindExact(t, k, hash);
  }

  lemma AddShape(t: Table, x: Ptr, k: Key, hash: HashFunction)
    requires |t.chains| == |t.mult| > 0
    ensures Add(t, x, k, hash).order == t.order + [x] && Add(t, x, k, hash).key == t.key[x := k]
  {
    hide Spread, Mults, Excess;
  }

  lemma DeleteShape(t: Table, x: Ptr, hash: HashFunction)
    requires |t.chains| > 0
    ensures Delete(t, x, hash).order == Remove(t.order, x) && Delete(t, x, hash).key == t.key
  {
  }

  lemma InSorted(s: seq<Ptr>, cmp: Compare<Ptr>, x: Ptr)
    ensures x in BottomUp(s, 1, cmp) <==> x in s
  {
    BottomUpIsPermutation(s, 1, cmp);
    assert x in s <==> x in multiset(s);
    assert x in BottomUp(s, 1, cmp) <==> x in multiset(BottomUp(s, 1, cmp));
  }

  lemma ApplyRepresents(t: Table, p: Plain, op: Op, hash: HashFunction)
    requires |t.chains| == |t.mult| > 0 && Represents(t, p) && Legal(t, op) && Proper(p, op)
    ensures Represents(Apply(t, op, hash), PlainApply(p, op))
  {
    hide Add, Delete, BottomUp, Remove, InsertionSort;
    match op
    case AddItem(x, k) =>
      AddShape(t, x, k, hash);
    case DeleteItem(x) =>
      DeleteShape(t, x, hash);
      forall y: Ptr ensures y in Remove(t.order, x) <==> y in t.order && y != x { InRemove(t.order, x, y); }
    case SortItems(cmp) =>
      BottomUpIsInsertionSort(t.order, cmp);
      forall y: Ptr ensures y in BottomUp(t.order, 1, cmp) <==> y in t.order { InSorted(t.order, cmp, y); }
  }

  ghost predicate AllProper(ops: seq<Op>) {
    forall i | 0 <= i < |ops| :: Proper(PlainAfter(ops[..i]), ops[i])
  }

  lemma {:induction false} RunRepresents(states: seq<Table>, ops: seq<Op>, hash: HashFunction, i: nat)
    requires IsRun(states, ops, hash) && AllProper(ops) && i <= |ops|
    ensures Represents(states[i], PlainAfter(ops[..i]))
  {
    hide Represents, Apply, Legal, Proper, PlainApply;
    if i == 0 {
      StartRepresents();
    } else {
      RunRepresents(states, ops, hash, i - 1);
      assert Legal(states[i - 1], ops[i - 1]) && states[i - 1 + 1] == Apply(states[i - 1], ops[i - 1], hash);
      assert Proper(PlainAfter(ops[..i - 1]), ops[i - 1]);
      assert ops[..i][..i - 1] == ops[..i - 1];
      ApplyRepresents(states[i - 1], PlainAfter(ops[..i - 1]), ops[i - 1], hash);
    }
  }

  lemma StartRepresents()
    ensures Represents(Made(map[]), Plain(map[], []))
  {
  }

  /** With distinct keys no run of additions, deletions, sorts and the expansions they cause
      can be told from the plain map by HASH_FIND, nor from the plain list by iterating. */
  lemma RunRefinesMap(states: seq<Table>, ops: seq<Op>, hash: HashFunction, i: nat, k: Key)
    requires IsRun(states, ops, hash) && AllProper(ops) && i <= |ops|
    ensures states[i].order == PlainAfter(ops[..i]).order
    ensures |states[i].chains| > 0
    ensures var plain := PlainAfter(ops[..i]).lookup;
            Find(states[i], k, hash) == if k in plain then plain[k] else NULL
  {
    hide Find, WF;
    RunRepresents(states, ops, hash, i);
    RunWF(states, ops, hash, i);
    WFSize(states[i], hash);
    RepresentsFind(states[i], PlainAfter(ops[..i]), hash, k);
  }
}
