/** HASH_EXPAND_BUCKETS half way: the new chains after m items of old bucket i have moved,
    and why moving one more item in place disturbs neither the chains built so far nor the
    part of the old chains that is still to be read. */
module HashExpand {
  import opened Pointers
  import opened HashPolicy
  import opened HashSpec
  import opened HashLinks

  /** UT_hash_bucket */
  datatype Bucket = Bucket(hhHead: Ptr, count: nat, expandMult: nat)

  ghost predicate At(chains: seq<seq<Ptr>>, i: nat, m: nat) {
    i <= |chains| && m <= if i < |chains| then |chains[i]| else 0
  }

  /** The items of old bucket b that have moved. */
  function Moved(chains: seq<seq<Ptr>>, b: nat, i: nat, m: nat): seq<Ptr>
    requires At(chains, i, m) && b < |chains|
  {
    if b < i then chains[b] else if b == i then chains[b][..m] else []
  }

  function NewChain(chains: seq<seq<Ptr>>, key: map<Ptr, Key>, hash: HashFunction, i: nat, m: nat, j: nat): seq<Ptr>
    requires At(chains, i, m) && j < 2 * |chains|
  {
    Reverse(Residents(Moved(chains, j % |chains|, i, m), key, hash, 2 * |chains|, j))
  }

  function SoFar(chains: seq<seq<Ptr>>, key: map<Ptr, Key>, hash: HashFunction, i: nat, m: nat): (r: seq<seq<Ptr>>)
    requires At(chains, i, m) && |chains| > 0
    ensures |r| == 2 * |chains|
  {
    seq(2 * |chains|, j requires 0 <= j < 2 * |chains| => NewChain(chains, key, hash, i, m, j))
  }

  lemma SoFarStart(chains: seq<seq<Ptr>>, key: map<Ptr, Key>, hash: HashFunction)
    requires |chains| > 0
    ensures SoFar(chains, key, hash, 0, 0) == seq(2 * |chains|, _ => [])
  {
    forall j | 0 <= j < 2 * |chains| ensures NewChain(chains, key, hash, 0, 0, j) == [] {
      assert Moved(chains, j % |chains|, 0, 0) == [];
    }
  }

  lemma SoFarEnd(chains: seq<seq<Ptr>>, key: map<Ptr, Key>, hash: HashFunction)
    requires |chains| > 0
    ensures SoFar(chains, key, hash, |chains|, 0) == Spread(chains, key, hash)
  {
  }

  lemma SoFarNextBucket(chains: seq<seq<Ptr>>, key: map<Ptr, Key>, hash: HashFunction, i: nat)
    requires i < |chains|
    ensures SoFar(chains, key, hash, i, |chains[i]|) == SoFar(chains, key, hash, i + 1, 0)
  {
    var m := |chains[i]|;
    forall j | 0 <= j < 2 * |chains|
      ensures NewChain(chains, key, hash, i, m, j) == NewChain(chains, key, hash, i + 1, 0, j)
    {
      assert Moved(chains, j % |chains|, i, m) == Moved(chains, j % |chains|, i + 1, 0);
    }
  }

  lemma {:induction false} ResidentsAppend(s: seq<Ptr>, x: Ptr, key: map<Ptr, Key>, hash: HashFunction, n: nat, j: nat)
    requires n > 0
    ensures Residents(s + [x], key, hash, n, j) ==
            Residents(s, key, hash, n, j) + if Slot(key, hash, n, x) == j then [x] else []
  {
    if s == [] {
      assert s + [x] == [x] && [x][1..] == [];
    } else {
      ResidentsAppend(s[1..], x, key, hash, n, j);
      assert (s + [x])[1..] == s[1..] + [x];
    }
  }

  lemma {:induction false} ReverseAppend(s: seq<Ptr>, x: Ptr)
    ensures Reverse(s + [x]) == [x] + Reverse(s)
  {
    if s == [] {
      assert s + [x] == [x] && [x][1..] == [];
    } else {
      ReverseAppend(s[1..], x);
      assert (s + [x])[1..] == s[1..] + [x];
    }
  }

  lemma NewChainStep(chains: seq<seq<Ptr>>, key: map<Ptr, Key>, hash: HashFunction, i: nat, m: nat, j: nat)
    requires i < |chains| && m < |chains[i]| && j < 2 * |chains|
    requires Slot(key, hash, |chains|, chains[i][m]) == i
    ensures NewChain(chains, key, hash, i, m + 1, j) ==
            (if Slot(key, hash, 2 * |chains|, chains[i][m]) == j then [chains[i][m]] else []) + NewChain(chains, key, hash, i, m, j)
  {
    hide Residents, Reverse, Slot;
    var n, x := |chains|, chains[i][m];
    SlotSplits(key, hash, n, x);
    var s := Moved(chains, j % n, i, m);
    if j % n == i {
      assert chains[i][..m + 1] == chains[i][..m] + [x];
      ResidentsAppend(s, x, key, hash, 2 * n, j);
      ReverseAppend(Residents(s, key, hash, 2 * n, j), x);
      assert Residents(s, key, hash, 2 * n, j) + [] == Residents(s, key, hash, 2 * n, j);
    } else {
      assert Moved(chains, j % n, i, m + 1) == s;
    }
  }

  /** Moving chains[i][m] pushes it on the front of its new chain and changes no other. */
  lemma SoFarStep(chains: seq<seq<Ptr>>, key: map<Ptr, Key>, hash: HashFunction, i: nat, m: nat)
    requires i < |chains| && m < |chains[i]| && Slot(key, hash, |chains|, chains[i][m]) == i
    ensures var nw, b := SoFar(chains, key, hash, i, m), Slot(key, hash, 2 * |chains|, chains[i][m]);
            SoFar(chains, key, hash, i, m + 1) == nw[b := [chains[i][m]] + nw[b]]
  {
    hide NewChain, Slot;
    var x, nw, after := chains[i][m], SoFar(chains, key, hash, i, m), SoFar(chains, key, hash, i, m + 1);
    var b := Slot(key, hash, 2 * |chains|, x);
    forall j | 0 <= j < 2 * |chains| ensures after[j] == nw[b := [x] + nw[b]][j] {
      NewChainStep(chains, key, hash, i, m, j);
      assert [] + nw[j] == nw[j];
    }
  }

  lemma NewChainHas(chains: seq<seq<Ptr>>, key: map<Ptr, Key>, hash: HashFunction, i: nat, m: nat, j: nat, y: Ptr)
    requires At(chains, i, m) && j < 2 * |chains|
    ensures y in NewChain(chains, key, hash, i, m, j) ==>
              Slot(key, hash, 2 * |chains|, y) == j && y in Moved(chains, j % |chains|, i, m)
    ensures multiset(NewChain(chains, key, hash, i, m, j))[y] <= multiset(Moved(chains, j % |chains|, i, m))[y]
  {
    hide Slot;
    var s := Moved(chains, j % |chains|, i, m);
    var r := Residents(s, key, hash, 2 * |chains|, j);
    ReverseCount(r);
    ResidentsCount(s, key, hash, 2 * |chains|, j, y);
    assert y in Reverse(r) ==> y in multiset(Reverse(r));
    assert y in multiset(s) ==> y in s;
  }

  lemma {:induction false} PrefixCount(s: seq<Ptr>, m: nat, y: Ptr)
    requires m <= |s|
    ensures multiset(s[..m])[y] <= multiset(s)[y]
  {
    assert s == s[..m] + s[m..];
  }

  lemma NewChainNodes(t: Table, hash: HashFunction, i: nat, m: nat, j: nat)
    requires Stored(t, hash) && At(t.chains, i, m) && j < 2 * |t.chains|
    ensures Nodes(NewChain(t.chains, t.key, hash, i, m, j))
  {
    hide NewChain, Holds;
    var b := j % |t.chains|;
    StoredGives(t, hash);
    ChainNodes(t, hash, b);
    var c: seq<Ptr> := NewChain(t.chains, t.key, hash, i, m, j);
    forall y: Ptr ensures multiset(c)[y] <= multiset(t.chains[b])[y] {
      NewChainHas(t.chains, t.key, hash, i, m, j, y);
      if b == i { PrefixCount(t.chains[b], m, y); }
    }
  }

  /** The item about to move is in none of the new chains, nor in what is left to read. */
  lemma MovingIsApart(t: Table, hash: HashFunction, i: nat, m: nat, j: nat)
    requires Stored(t, hash) && i < |t.chains| && m < |t.chains[i]| && j < 2 * |t.chains|
    ensures var x := t.chains[i][m];
            && Slot(t.key, hash, |t.chains|, x) == i && x in t.key && x in t.order
            && x !in NewChain(t.chains, t.key, hash, i, m, j)
            && x !in t.chains[i][m + 1..]
            && forall b | i < b < |t.chains| :: x !in t.chains[b]
  {
    hide NewChain, Holds, Slot;
    var x := t.chains[i][m];
    StoredGives(t, hash);
    assert x in t.chains[i];
    forall b | 0 <= b < |t.chains| ensures x in t.chains[b] ==> b == i {
      InChain(t, hash, b, x);
      InChain(t, hash, i, x);
    }
    InChain(t, hash, i, x);
    ChainNodes(t, hash, i);
    NodesDistinct(t.chains[i]);
    NewChainHas(t.chains, t.key, hash, i, m, j, x);
  }

  /** Different new chains share nothing. */
  lemma NewChainsApart(chains: seq<seq<Ptr>>, key: map<Ptr, Key>, hash: HashFunction, i: nat, m: nat, j: nat, b: nat)
    requires At(chains, i, m) && j < 2 * |chains| && b < 2 * |chains| && j != b
    ensures var c := NewChain(chains, key, hash, i, m, b);
            c != [] ==> Head(c) !in NewChain(chains, key, hash, i, m, j)
  {
    hide NewChain, Slot;
    var c := NewChain(chains, key, hash, i, m, b);
    if c != [] {
      NewChainHas(chains, key, hash, i, m, b, c[0]);
      NewChainHas(chains, key, hash, i, m, j, c[0]);
    }
  }

  // ---- The links ----

  ghost predicate BuiltOk(t: Table, hash: HashFunction, next: Field, prev: Field, i: nat, m: nat)
    requires At(t.chains, i, m)
  {
    forall j | 0 <= j < 2 * |t.chains| :: TwoWay(next, prev, NewChain(t.chains, t.key, hash, i, m, j))
  }

  /** What is left to read is still linked. */
  ghost predicate TodoOk(chains: seq<seq<Ptr>>, next: Field, i: nat, m: nat)
    requires At(chains, i, m)
  {
    && (i < |chains| ==> Linked(next, chains[i][m..], NULL))
    && forall b | i < b < |chains| :: Linked(next, chains[b], NULL)
  }

  lemma BuiltStepAt(t: Table, hash: HashFunction, next: Field, prev: Field, i: nat, m: nat, j: nat)
    requires Stored(t, hash) && i < |t.chains| && m < |t.chains[i]| && j < 2 * |t.chains|
    requires BuiltOk(t, hash, next, prev, i, m)
    ensures var x := t.chains[i][m];
            var first := Head(NewChain(t.chains, t.key, hash, i, m, Slot(t.key, hash, 2 * |t.chains|, x)));
            TwoWay(next[x := first], PushedPrev(prev, x, first), NewChain(t.chains, t.key, hash, i, m + 1, j))
  {
    hide NewChain, TwoWay, Stored, Slot, PushedPrev;
    var x := t.chains[i][m];
    var b := Slot(t.key, hash, 2 * |t.chains|, x);
    var c: seq<Ptr> := NewChain(t.chains, t.key, hash, i, m, j);
    var target := NewChain(t.chains, t.key, hash, i, m, b);
    MovingIsApart(t, hash, i, m, j);
    NewChainStep(t.chains, t.key, hash, i, m, j);
    if j == b {
      NewChainNodes(t, hash, i, m, j);
      PushLinks(next, prev, c, x);
    } else {
      NewChainsApart(t.chains, t.key, hash, i, m, j, b);
      NewChainNodes(t, hash, i, m, j);
      NodesDistinct(c);
      PushKeeps(next, prev, target, x, c);
      assert [] + c == c;
    }
  }

  lemma TailLinked(next: Field, s: seq<Ptr>, m: nat)
    requires m < |s| && Linked(next, s[m..], NULL)
    ensures s[m] in next && next[s[m]] == Head(s[m + 1..]) && Linked(next, s[m + 1..], NULL)
  {
    var a, b := s[m..], s[m + 1..];
    LinkedAt(next, a, NULL, 0);
    forall i | 0 <= i < |b| ensures b[i] in next && next[b[i]] == if i + 1 < |b| then b[i + 1] else NULL {
      LinkedAt(next, a, NULL, i + 1);
    }
  }

  lemma TodoStep(t: Table, hash: HashFunction, next: Field, i: nat, m: nat, v: Ptr)
    requires Stored(t, hash) && i < |t.chains| && m < |t.chains[i]| && TodoOk(t.chains, next, i, m)
    ensures var x := t.chains[i][m];
            x in next && next[x] == Head(t.chains[i][m + 1..]) && TodoOk(t.chains, next[x := v], i, m + 1)
  {
    hide Linked, Stored;
    var x := t.chains[i][m];
    MovingIsApart(t, hash, i, m, 0);
    TailLinked(next, t.chains[i], m);
    LinkedKeeps(next, t.chains[i][m + 1..], NULL, x, v);
    forall b | i < b < |t.chains| ensures Linked(next[x := v], t.chains[b], NULL) {
      LinkedKeeps(next, t.chains[b], NULL, x, v);
    }
  }

  // ---- The bucket array ----

  /** A new bucket: its count and expand_mult follow from its chain. */
  function Cell(c: seq<Ptr>, ideal: nat): Bucket
    requires ideal > 0
  {
    Bucket(Head(c), |c|, MultOf(|c|, ideal))
  }

  ghost predicate CellsOk(cells: seq<Bucket>, nw: seq<seq<Ptr>>, ideal: nat)
    requires ideal > 0
  {
    |cells| == |nw| && forall j | 0 <= j < |nw| :: cells[j] == Cell(nw[j], ideal)
  }

  /** A bucket after one more item, as the loop body computes it. */
  function Counted(c: Bucket, x: Ptr, ideal: nat): Bucket
    requires ideal > 0
  {
    Bucket(x, c.count + 1, if c.count + 1 > ideal then (c.count + 1) / ideal else c.expandMult)
  }

  /** What one more item adds to nonideal_items. */
  function Late(c: Bucket, ideal: nat): nat { if c.count + 1 > ideal then 1 else 0 }

  /** The running count, expand_mult and nonideal_items of the loop body. */
  lemma CellStep(cells: seq<Bucket>, nw: seq<seq<Ptr>>, ideal: nat, b: nat, x: Ptr)
    requires ideal > 0 && CellsOk(cells, nw, ideal) && b < |nw|
    ensures CellsOk(cells[b := Counted(cells[b], x, ideal)], nw[b := [x] + nw[b]], ideal)
    ensures Excess(Counts(nw[b := [x] + nw[b]]), ideal) == Excess(Counts(nw), ideal) + Late(cells[b], ideal)
  {
    hide Excess;
    var c := Counts(nw);
    assert cells[b] == Cell(nw[b], ideal);
    ExcessUpdate(c, b, c[b] + 1, ideal);
    assert Counts(nw[b := [x] + nw[b]]) == c[b := c[b] + 1];
  }

  lemma CellsStart(cells: seq<Bucket>, nw: seq<seq<Ptr>>, ideal: nat)
    requires ideal > 0 && |cells| == |nw|
    requires forall j | 0 <= j < |cells| :: cells[j] == Bucket(NULL, 0, 0)
    requires forall j | 0 <= j < |nw| :: nw[j] == []
    ensures CellsOk(cells, nw, ideal) && Excess(Counts(nw), ideal) == 0
  {
    ExcessZeros(Counts(nw), ideal);
  }

  // ---- The loop ----

  /** The state of HASH_EXPAND_BUCKETS after m items of old bucket i. */
  ghost predicate Midway(t: Table, hash: HashFunction, next: Field, prev: Field, ideal: nat, nonideal: nat,
                         cells: seq<Bucket>, i: nat, m: nat) {
    && At(t.chains, i, m) && |t.chains| > 0 && ideal > 0
    && BuiltOk(t, hash, next, prev, i, m)
    && TodoOk(t.chains, next, i, m)
    && CellsOk(cells, SoFar(t.chains, t.key, hash, i, m), ideal)
    && nonideal == Excess(Counts(SoFar(t.chains, t.key, hash, i, m)), ideal)
  }

  /** Moving one item keeps the state, with the count, expand_mult and nonideal_items that
      the loop body stores. */
  lemma MidwayStep(t: Table, hash: HashFunction, next: Field, prev: Field, ideal: nat, nonideal: nat,
                   cells: seq<Bucket>, i: nat, m: nat, x: Ptr, b: nat)
    requires i < |t.chains| && m < |t.chains[i]| && x == t.chains[i][m] && b == Slot(t.key, hash, 2 * |t.chains|, x)
    requires |cells| == 2 * |t.chains| && ideal > 0
    requires Midway(t, hash, next, prev, ideal, nonideal, cells, i, m)
    requires Stored(t, hash)
    ensures x in next && next[x] == Head(t.chains[i][m + 1..])
    ensures Midway(t, hash, next[x := cells[b].hhHead], PushedPrev(prev, x, cells[b].hhHead), ideal,
                   nonideal + Late(cells[b], ideal), cells[b := Counted(cells[b], x, ideal)], i, m + 1)
  {
    hide Stored, TodoOk, Excess, Slot, NewChain, PushedPrev, TwoWay;
    var nw := SoFar(t.chains, t.key, hash, i, m);
    var first := cells[b].hhHead;
    assert cells[b] == Cell(nw[b], ideal) && first == Head(nw[b]);
    MovingIsApart(t, hash, i, m, 0);
    SoFarStep(t.chains, t.key, hash, i, m);
    CellStep(cells, nw, ideal, b, x);
    TodoStep(t, hash, next, i, m, first);
    var m' := m + 1;
    forall j | 0 <= j < 2 * |t.chains|
      ensures TwoWay(next[x := first], PushedPrev(prev, x, first), NewChain(t.chains, t.key, hash, i, m', j))
    {
      BuiltStepAt(t, hash, next, prev, i, m, j);
    }
  }

  lemma MidwayNextBucket(t: Table, hash: HashFunction, next: Field, prev: Field, ideal: nat, nonideal: nat,
                         cells: seq<Bucket>, i: nat)
    requires i < |t.chains| && Midway(t, hash, next, prev, ideal, nonideal, cells, i, |t.chains[i]|)
    ensures Midway(t, hash, next, prev, ideal, nonideal, cells, i + 1, 0)
  {
    hide TwoWay, Excess, Linked, NewChain;
    var c, m, i' := t.chains, |t.chains[i]|, i + 1;
    SoFarNextBucket(c, t.key, hash, i);
    forall j | 0 <= j < 2 * |c| ensures TwoWay(next, prev, NewChain(c, t.key, hash, i', 0, j)) {
      assert SoFar(c, t.key, hash, i, m)[j] == SoFar(c, t.key, hash, i + 1, 0)[j];
      assert TwoWay(next, prev, NewChain(c, t.key, hash, i, m, j));
    }
    if i + 1 < |c| { assert c[i + 1][0..] == c[i + 1]; }
  }

  lemma MidwayStart(t: Table, hash: HashFunction, next: Field, prev: Field, ideal: nat, cells: seq<Bucket>)
    requires |t.chains| > 0 && ideal > 0
    requires |cells| == 2 * |t.chains| && forall j | 0 <= j < |cells| :: cells[j] == Bucket(NULL, 0, 0)
    requires forall j | 0 <= j < |t.chains| :: Linked(next, t.chains[j], NULL)
    ensures Midway(t, hash, next, prev, ideal, 0, cells, 0, 0)
  {
    hide Linked, Excess, NewChain;
    var c := t.chains;
    SoFarStart(c, t.key, hash);
    CellsStart(cells, SoFar(c, t.key, hash, 0, 0), ideal);
    forall j | 0 <= j < 2 * |c| ensures TwoWay(next, prev, NewChain(c, t.key, hash, 0, 0, j)) {
      assert SoFar(c, t.key, hash, 0, 0)[j] == [];
      NoLinks(next, prev);
    }
    assert c[0][0..] == c[0];
  }

  lemma NoLinks(next: Field, prev: Field)
    ensures TwoWay(next, prev, [])
  {
  }

  lemma MidwayReads(t: Table, hash: HashFunction, next: Field, prev: Field, ideal: nat, nonideal: nat,
                    cells: seq<Bucket>, i: nat, m: nat)
    requires Midway(t, hash, next, prev, ideal, nonideal, cells, i, m)
    ensures |cells| == 2 * |t.chains|
  {
  }
}
