/** uthash as it runs: elements are addresses carrying the fields of UT_hash_handle, the
    table carries the bucket array and the counters of UT_hash_table, and every macro is a
    method proved to take the represented table to the one HashSpec says. */
module HashTable {
  import opened Pointers
  import opened HashPolicy
  import opened HashSpec
  import opened HashLinks
  import opened HashExpand
  import opened HashBloom
  import opened SortSpec
  import HashRuns
  import ListSort

  ghost predicate ChainsLinked(next: Field, prev: Field, chains: seq<seq<Ptr>>) {
    forall j | 0 <= j < |chains| :: TwoWay(next, prev, chains[j])
  }

  ghost predicate CellsMatch(cells: seq<Bucket>, chains: seq<seq<Ptr>>, mult: seq<nat>) {
    && |cells| == |chains| == |mult|
    && forall j | 0 <= j < |chains| :: cells[j] == Bucket(Head(chains[j]), |chains[j]|, mult[j])
  }

  lemma PushedChains(t: Table, hash: HashFunction, x: Ptr, k: Key, next: Field, prev: Field)
    requires |t.chains| > 0 && Stored(t, hash) && x !in t.order && ChainsLinked(next, prev, t.chains)
    ensures var first := Head(t.chains[hash(k) % |t.chains|]);
            ChainsLinked(next[x := first], PushedPrev(prev, x, first), Insertion(t, x, k, hash).chains)
  {
    hide TwoWay, PushedPrev, Holds, Nodes;
    StoredGives(t, hash);
    var b := hash(k) % |t.chains|;
    var first := Head(t.chains[b]);
    var chains := Insertion(t, x, k, hash).chains;
    forall j | 0 <= j < |chains| ensures TwoWay(next[x := first], PushedPrev(prev, x, first), chains[j]) {
      InChain(t, hash, j, x);
      ChainNodes(t, hash, j);
      if j == b {
        PushLinks(next, prev, t.chains[b], x);
      } else {
        NodesDistinct(t.chains[j]);
        InChain(t, hash, j, first);
        InChain(t, hash, b, first);
        PushKeeps(next, prev, t.chains[b], x, t.chains[j]);
      }
    }
  }

  lemma UnlinkedChains(t: Table, hash: HashFunction, x: Ptr, next: Field, prev: Field)
    requires |t.chains| > 0 && Stored(t, hash) && x in t.order && t.order != [x] && ChainsLinked(next, prev, t.chains)
    ensures x in next && x in prev
    ensures var c := t.chains[Slot(t.key, hash, |t.chains|, x)];
            && |Remove(c, x)| == |c| - 1
            && Head(Remove(c, x)) == (if x == Head(c) then next[x] else Head(c))
            && prev[x] != x && next[x] != x
    ensures ChainsLinked(UnlinkedNext(next, prev, x), UnlinkedPrev(next, prev, x), Delete(t, x, hash).chains)
  {
    hide TwoWay, UnlinkedNext, UnlinkedPrev, Holds, Nodes, Slot, Remove;
    StoredGives(t, hash);
    var b := Slot(t.key, hash, |t.chains|, x);
    var chains := Delete(t, x, hash).chains;
    InChain(t, hash, b, x);
    ChainNodes(t, hash, b);
    UnlinkLinks(next, prev, t.chains[b], x);
    forall j | 0 <= j < |chains| ensures TwoWay(UnlinkedNext(next, prev, x), UnlinkedPrev(next, prev, x), chains[j]) {
      if j != b {
        forall y | y in t.chains[b] ensures y !in t.chains[j] {
          InChain(t, hash, b, y);
          InChain(t, hash, j, y);
        }
        UnlinkKeeps(next, prev, t.chains[b], x, t.chains[j]);
      }
    }
  }

  /** The fields of UT_hash_handle, for every element. */
  datatype Handles = Handles(next: Field, prev: Field, hhNext: Field, hhPrev: Field,
                             key: map<Ptr, Key>, hashv: map<Ptr, nat>)

  /** The fields of UT_hash_table beside the bucket array and the bit vector. */
  datatype Figures = Figures(numBuckets: nat, log2NumBuckets: nat, numItems: nat, tail: Ptr, idealChainMaxlen: nat,
                             nonidealItems: nat, ineffExpands: nat, noexpand: nat)

  ghost predicate KeysOk(key: map<Ptr, Key>, hashv: map<Ptr, nat>, hash: HashFunction, t: Table) {
    && key == t.key
    && forall x | x in t.order :: x in key && x in hashv && hashv[x] == hash(key[x])
  }

  ghost predicate OrderOk(head: Ptr, next: Field, prev: Field, tail: Ptr, numItems: nat, t: Table) {
    && head == Head(t.order)
    && tail == Last(t.order)
    && numItems == |t.order|
    && TwoWay(next, prev, t.order)
  }

  ghost predicate BucketsOk(hhNext: Field, hhPrev: Field, cells: seq<Bucket>, t: Table) {
    CellsMatch(cells, t.chains, t.mult) && ChainsLinked(hhNext, hhPrev, t.chains)
  }

  ghost predicate PolicyOk(tbl: Figures, t: Table) {
    && tbl.numBuckets == |t.chains|
    && tbl.log2NumBuckets == t.log2
    && tbl.idealChainMaxlen == t.ideal
    && tbl.nonidealItems == t.nonideal
    && tbl.ineffExpands == t.ineff
    && tbl.noexpand == if t.noexpand then 1 else 0
  }

  lemma MadeCells(key: map<Ptr, Key>, hh: Handles)
    ensures BucketsOk(hh.hhNext, hh.hhPrev, seq(Pow2(INITIAL_LOG2), _ => Bucket(NULL, 0, 0)), Made(key))
  {
  }

  lemma AppendKeys(key: map<Ptr, Key>, hashv: map<Ptr, nat>, hash: HashFunction, t: Table, x: Ptr, k: Key)
    requires KeysOk(key, hashv, hash, t) && x !in t.order
    ensures KeysOk(key[x := k], hashv[x := hash(k)], hash, t.(order := t.order + [x], key := t.key[x := k]))
  {
  }

  /** KeysOk and OrderOk look at the order and the keys alone. */
  lemma SameOrder(head: Ptr, hh: Handles, tbl: Figures, hash: HashFunction, t: Table, t': Table)
    requires t.order == t'.order && t.key == t'.key
    ensures KeysOk(hh.key, hh.hashv, hash, t) <==> KeysOk(hh.key, hh.hashv, hash, t')
    ensures OrderOk(head, hh.next, hh.prev, tbl.tail, tbl.numItems, t) <==> OrderOk(head, hh.next, hh.prev, tbl.tail, tbl.numItems, t')
  {
    hide TwoWay;
  }

  /** The stored hash of an item gives its bucket. */
  lemma SlotByHash(key: map<Ptr, Key>, hashv: map<Ptr, nat>, hash: HashFunction, t: Table, x: Ptr, n: nat)
    requires KeysOk(key, hashv, hash, t) && x in t.order && n > 0
    ensures x in hashv && Slot(t.key, hash, n, x) == hashv[x] % n
  {
  }

  class UtHash {
    const hash: HashFunction
    const useBloom: bool
    const bloomBits: nat

    var head: Ptr
    var hh: Handles
    var tbl: Figures
    var buckets: array<Bucket>
    var bloom: seq<bv8>

    ghost var view: Table

    /** The fields represent table t; a NULL head stands for no table. */
    ghost predicate Represents(t: Table)
      reads this, buckets
    {
      && KeysOk(hh.key, hh.hashv, hash, t)
      && (head == NULL <==> t.order == [])
      && (head == NULL ==> t == Made(t.key))
      && (head != NULL ==> OrderOk(head, hh.next, hh.prev, tbl.tail, tbl.numItems, t) && PolicyOk(tbl, t) && BucketsOk(hh.hhNext, hh.hhPrev, buckets[..], t) && BloomOk(t))
    }

    ghost predicate BloomOk(t: Table)
      reads this
    {
      useBloom ==> Covers(bloom, bloomBits, hash, t)
    }

    ghost predicate Valid()
      reads this, buckets
    {
      WF(view, hash) && Represents(view)
    }

    constructor (hash: HashFunction, useBloom: bool, bloomBits: nat)
      ensures Valid() && view == Made(map[]) && fresh(buckets)
      ensures this.hash == hash && this.useBloom == useBloom && this.bloomBits == bloomBits
    {
      this.hash, this.useBloom, this.bloomBits := hash, useBloom, bloomBits;
      head, hh, tbl := NULL, Handles(map[], map[], map[], map[], map[], map[]), Figures(0, 0, 0, NULL, 0, 0, 0, 0);
      buckets, bloom := new Bucket[0], [];
      view := Made(map[]);
      MadeWF(map[], hash);
    }

    /** HASH_MAKE_TABLE */
    method MakeTable(ghost t: Table)
      requires t == Made(t.key)
      modifies this`buckets, this`tbl, this`bloom
      ensures BucketsOk(hh.hhNext, hh.hhPrev, buckets[..], t) && PolicyOk(tbl, t) && BloomOk(t)
      ensures tbl.tail == head && tbl.numItems == 0
      ensures fresh(buckets)
    {
      hide BucketsOk, Covers, Pow2;
      tbl := Figures(Pow2(INITIAL_LOG2), INITIAL_LOG2, 0, head, 0, 0, 0, 0);
      buckets := new Bucket[tbl.numBuckets](_ => Bucket(NULL, 0, 0));
      bloom := if useBloom then seq(ByteLen(bloomBits), _ => 0) else [];
      assert buckets[..] == seq(Pow2(INITIAL_LOG2), _ => Bucket(NULL, 0, 0));
      MadeCells(t.key, hh);
      if useBloom { EmptyCovered(bloom, bloomBits, hash, t); }
    }

    /** The app-order half of HASH_ADD_KEYPTR. */
    method AppendToOrder(x: Ptr, k: Key)
      requires Valid() && x != NULL && x !in view.order
      modifies this`head, this`hh, this`tbl, this`buckets, this`bloom
      ensures var t := view.(order := view.order + [x], key := view.key[x := k]);
              KeysOk(hh.key, hh.hashv, hash, t) && OrderOk(head, hh.next, hh.prev, tbl.tail, tbl.numItems, t)
      ensures PolicyOk(tbl, view) && BucketsOk(hh.hhNext, hh.hhPrev, buckets[..], view) && BloomOk(view)
      ensures head != NULL && tbl.numItems == |view.order| + 1 && x in hh.hashv && hh.hashv[x] == hash(k)
      ensures fresh(buckets) || buckets == old(buckets)
    {
      hide WF, Covers, CellsMatch, ChainsLinked, TwoWay, KeysOk;
      assert Nodes(view.order) by { WFGives(view, hash); }
      AppendKeys(hh.key, hh.hashv, hash, view, x, k);
      hh := hh.(next := hh.next[x := NULL], key := hh.key[x := k]);
      if head == NULL {
        head := x;
        hh := hh.(prev := hh.prev[x := NULL]);
        MakeTable(view);
        assert view.order + [x] == [x];
        SingleLinks(hh.next, hh.prev, x);
      } else {
        AppendLinks(old(hh.next), hh.prev, view.order, x);
        hh := hh.(next := hh.next[tbl.tail := x], prev := hh.prev[x := tbl.tail]);
        tbl := tbl.(tail := x);
      }
      tbl := tbl.(numItems := tbl.numItems + 1);
      hh := hh.(hashv := hh.hashv[x := hash(k)]);
    }

    /** HASH_ADD_TO_BKT without the expansion. */
    method PushOnBucket(b: nat, x: Ptr, ghost t: Table, ghost k: Key)
      requires |t.chains| > 0 && Stored(t, hash) && x != NULL && x !in t.order
      requires b == hash(k) % |t.chains| && BucketsOk(hh.hhNext, hh.hhPrev, buckets[..], t)
      modifies this`hh, buckets
      ensures BucketsOk(hh.hhNext, hh.hhPrev, buckets[..], Insertion(t, x, k, hash))
      ensures hh == old(hh).(hhNext := hh.hhNext, hhPrev := hh.hhPrev)
    {
      hide Stored, ChainsLinked;
      PushedChains(t, hash, x, k, hh.hhNext, hh.hhPrev);
      var bucket := buckets[b];
      hh := hh.(hhNext := hh.hhNext[x := bucket.hhHead], hhPrev := hh.hhPrev[x := NULL]);
      if bucket.hhHead != NULL {
        hh := hh.(hhPrev := hh.hhPrev[bucket.hhHead := x]);
      }
      buckets[b] := Bucket(x, bucket.count + 1, bucket.expandMult);
    }

    /** One round of the inner loop of HASH_EXPAND_BUCKETS: item m of old bucket i moves. */
    method MoveItem(thh: Ptr, newBuckets: array<Bucket>, ghost t: Table, ghost i: nat, ghost m: nat)
      returns (nxt: Ptr)
      requires |t.chains| == Pow2(t.log2) && Stored(t, hash) && KeysOk(hh.key, hh.hashv, hash, t)
      requires tbl.numBuckets == |t.chains| && tbl.idealChainMaxlen > 0
      requires i < |t.chains| && m < |t.chains[i]| && thh == t.chains[i][m]
      requires Midway(t, hash, hh.hhNext, hh.hhPrev, tbl.idealChainMaxlen, tbl.nonidealItems, newBuckets[..], i, m)
      modifies this`hh, this`tbl, newBuckets
      ensures Midway(t, hash, hh.hhNext, hh.hhPrev, tbl.idealChainMaxlen, tbl.nonidealItems, newBuckets[..], i, m + 1)
      ensures nxt == Head(t.chains[i][m + 1..])
      ensures hh == old(hh).(hhNext := hh.hhNext, hhPrev := hh.hhPrev)
      ensures tbl == old(tbl).(nonidealItems := tbl.nonidealItems)
    {
      hide Stored, Midway, BitAnd, KeysOk, Slot;
      MovingIsApart(t, hash, i, m, 0);
      SlotByHash(hh.key, hh.hashv, hash, t, thh, 2 * |t.chains|);
      MaskIsRemainder(hh.hashv[thh], t.log2 + 1);
      MidwayReads(t, hash, hh.hhNext, hh.hhPrev, tbl.idealChainMaxlen, tbl.nonidealItems, newBuckets[..], i, m);
      MidwayStep(t, hash, hh.hhNext, hh.hhPrev, tbl.idealChainMaxlen, tbl.nonidealItems, newBuckets[..], i, m,
                 thh, Slot(t.key, hash, 2 * |t.chains|, thh));
      nxt := hh.hhNext[thh];
      var bkt := BitAnd(hh.hashv[thh], tbl.numBuckets * 2 - 1);
      var newbkt := newBuckets[bkt];
      newbkt := newbkt.(count := newbkt.count + 1);
      if newbkt.count > tbl.idealChainMaxlen {
        tbl := tbl.(nonidealItems := tbl.nonidealItems + 1);
        newbkt := newbkt.(expandMult := newbkt.count / tbl.idealChainMaxlen);
      }
      hh := hh.(hhPrev := hh.hhPrev[thh := NULL]);
      hh := hh.(hhNext := hh.hhNext[thh := newbkt.hhHead]);
      if newbkt.hhHead != NULL {
        hh := hh.(hhPrev := hh.hhPrev[newbkt.hhHead := thh]);
      }
      newBuckets[bkt] := newbkt.(hhHead := thh);
    }

    /** HASH_EXPAND_BUCKETS */
    method ExpandBuckets(ghost t: Table)
      requires |t.chains| == |t.mult| == Pow2(t.log2) && t.order != [] && Stored(t, hash)
      requires KeysOk(hh.key, hh.hashv, hash, t) && PolicyOk(tbl, t) && BucketsOk(hh.hhNext, hh.hhPrev, buckets[..], t)
      requires tbl.numItems == |t.order|
      modifies this`hh, this`tbl, this`buckets
      ensures PolicyOk(tbl, Expand(t, hash)) && BucketsOk(hh.hhNext, hh.hhPrev, buckets[..], Expand(t, hash))
      ensures hh == old(hh).(hhNext := hh.hhNext, hhPrev := hh.hhPrev)
      ensures tbl.tail == old(tbl).tail && tbl.numItems == old(tbl).numItems
      ensures fresh(buckets)
    {
      hide Stored, Midway, BucketsOk, KeysOk, ShiftRight, BitAnd, Pow2, CeilDiv;
      var newBuckets := new Bucket[2 * tbl.numBuckets](_ => Bucket(NULL, 0, 0));
      var ideal := ShiftRight(tbl.numItems, tbl.log2NumBuckets + 1)
                   + if BitAnd(tbl.numItems, tbl.numBuckets * 2 - 1) != 0 then 1 else 0;
      IdealIsCeilDiv(tbl.numItems, t.log2);
      tbl := tbl.(idealChainMaxlen := ideal, nonidealItems := 0);
      MidwayStarts(t, hash, hh, buckets[..], ideal, newBuckets[..]);
      var i := 0;
      while i < tbl.numBuckets
        invariant i <= |t.chains|
        invariant Midway(t, hash, hh.hhNext, hh.hhPrev, ideal, tbl.nonidealItems, newBuckets[..], i, 0)
        invariant hh == old(hh).(hhNext := hh.hhNext, hhPrev := hh.hhPrev)
        invariant tbl == old(tbl).(idealChainMaxlen := ideal, nonidealItems := tbl.nonidealItems)
        invariant buckets.Length == |t.chains|
        invariant forall j | 0 <= j < |t.chains| :: buckets[j].hhHead == Head(t.chains[j])
      {
        MoveBucket(buckets[i].hhHead, newBuckets, t, i);
        i := i + 1;
      }
      MidwayEnds(t, hash, hh, ideal, tbl.nonidealItems, newBuckets[..]);
      buckets := newBuckets;
      FinishExpansion(t);
    }

    /** The assignments after the loops of HASH_EXPAND_BUCKETS. */
    method FinishExpansion(ghost t: Table)
      requires |t.chains| > 0 && PolicyOk(tbl.(idealChainMaxlen := t.ideal, nonidealItems := t.nonideal), t)
      requires tbl.idealChainMaxlen == Expand(t, hash).ideal && tbl.nonidealItems == Expand(t, hash).nonideal
      requires tbl.numItems == |t.order|
      modifies this`tbl
      ensures PolicyOk(tbl, Expand(t, hash))
      ensures tbl.tail == old(tbl).tail && tbl.numItems == old(tbl).numItems
    {
      hide ShiftRight, CeilDiv, Excess, Mults, Spread;
      ShiftIsQuotient(tbl.numItems, 1);
      assert Pow2(1) == 2;
      tbl := tbl.(numBuckets := tbl.numBuckets * 2, log2NumBuckets := tbl.log2NumBuckets + 1);
      tbl := tbl.(ineffExpands := if tbl.nonidealItems > ShiftRight(tbl.numItems, 1) then tbl.ineffExpands + 1 else 0);
      if tbl.ineffExpands > 1 {
        tbl := tbl.(noexpand := 1);
      }
    }

    /** The inner loop of HASH_EXPAND_BUCKETS, over old bucket i. */
    method MoveBucket(first: Ptr, newBuckets: array<Bucket>, ghost t: Table, ghost i: nat)
      requires |t.chains| == Pow2(t.log2) && Stored(t, hash) && KeysOk(hh.key, hh.hashv, hash, t)
      requires tbl.numBuckets == |t.chains| && tbl.idealChainMaxlen > 0
      requires i < |t.chains| && first == Head(t.chains[i])
      requires Midway(t, hash, hh.hhNext, hh.hhPrev, tbl.idealChainMaxlen, tbl.nonidealItems, newBuckets[..], i, 0)
      modifies this`hh, this`tbl, newBuckets
      ensures Midway(t, hash, hh.hhNext, hh.hhPrev, tbl.idealChainMaxlen, tbl.nonidealItems, newBuckets[..], i + 1, 0)
      ensures hh == old(hh).(hhNext := hh.hhNext, hhPrev := hh.hhPrev)
      ensures tbl == old(tbl).(nonidealItems := tbl.nonidealItems)
    {
      hide Stored, Midway, KeysOk, Pow2;
      StoredNonNull(t, hash, i);
      var thh := first;
      ghost var m := 0;
      assert t.chains[i][0..] == t.chains[i];
      while thh != NULL
        invariant m <= |t.chains[i]| && thh == Head(t.chains[i][m..])
        invariant Midway(t, hash, hh.hhNext, hh.hhPrev, tbl.idealChainMaxlen, tbl.nonidealItems, newBuckets[..], i, m)
        invariant hh == old(hh).(hhNext := hh.hhNext, hhPrev := hh.hhPrev)
        invariant tbl == old(tbl).(nonidealItems := tbl.nonidealItems)
        decreases |t.chains[i]| - m
      {
        thh := MoveItem(thh, newBuckets, t, i, m);
        m := m + 1;
      }
      assert m == |t.chains[i]|;
      MidwayNextBucket(t, hash, hh.hhNext, hh.hhPrev, tbl.idealChainMaxlen, tbl.nonidealItems, newBuckets[..], i);
    }

    /** HASH_ADD_TO_BKT */
    method AddToBucket(b: nat, x: Ptr, ghost t: Table, ghost k: Key)
      requires WF(t, hash) && x != NULL && x !in t.order
      requires b == hash(k) % |t.chains| && BucketsOk(hh.hhNext, hh.hhPrev, buckets[..], t)
      requires PolicyOk(tbl, t) && KeysOk(hh.key, hh.hashv, hash, Insertion(t, x, k, hash)) && tbl.numItems == |t.order| + 1
      modifies this`hh, this`tbl, this`buckets, buckets
      ensures PolicyOk(tbl, Add(t, x, k, hash)) && BucketsOk(hh.hhNext, hh.hhPrev, buckets[..], Add(t, x, k, hash))
      ensures hh == old(hh).(hhNext := hh.hhNext, hhPrev := hh.hhPrev)
      ensures tbl.tail == old(tbl).tail && tbl.numItems == old(tbl).numItems
      ensures fresh(buckets) || buckets == old(buckets)
    {
      hide WF, KeysOk, Stored, ChainsLinked, Expand;
      WFGives(t, hash);
      ghost var t1 := Insertion(t, x, k, hash);
      PushOnBucket(b, x, t, k);
      InsertionStored(t, x, k, hash);
      if buckets[b].count >= (buckets[b].expandMult + 1) * THRESHOLD && tbl.noexpand != 1 {
        ExpandBuckets(t1);
      }
    }

    /** HASH_BLOOM_ADD */
    method AddToBloom(hashv: nat, ghost t: Table, ghost x: Ptr, ghost k: Key, ghost t': Table)
      requires BloomOk(t) && hashv == hash(k) && t'.order == t.order + [x] && t'.key == t.key[x := k]
      modifies this`bloom
      ensures BloomOk(t')
    {
      hide Covers;
      if useBloom {
        MaskIsRemainder(hashv, bloomBits);
        CoversGrows(bloom, bloomBits, hash, t, x, k, t');
        var idx := BitAnd(hashv, Pow2(bloomBits) - 1);
        bloom := bloom[idx / 8 := bloom[idx / 8] | Mask(idx)];
      }
    }

    /** HASH_ADD_KEYPTR */
    method AddItem(x: Ptr, k: Key)
      requires Valid() && x != NULL && x !in view.order
      modifies this, buckets
      ensures Valid() && view == Add(old(view), x, k, hash)
      ensures fresh(buckets) || buckets == old(buckets)
    {
      hide WF, TwoWay, BucketsOk, Covers, Add, KeysOk, OrderOk;
      ghost var t := view;
      AppendToOrder(x, k);
      WFGives(t, hash);
      MaskIsRemainder(hash(k), t.log2);
      var b := BitAnd(hh.hashv[x], tbl.numBuckets - 1);
      ghost var t1 := t.(order := t.order + [x], key := t.key[x := k]);
      SameOrder(head, hh, tbl, hash, t1, Insertion(t, x, k, hash));
      AddToBucket(b, x, t, k);
      HashRuns.AddShape(t, x, k, hash);
      SameOrder(head, hh, tbl, hash, t1, Add(t, x, k, hash));
      AddToBloom(hh.hashv[x], t, x, k, Add(t, x, k, hash));
      view := Add(t, x, k, hash);
      AddWF(t, x, k, hash);
    }

    /** The app-order half of HASH_DELETE: head, tail and the neighbours' links. */
    method UnlinkFromOrder(x: Ptr, ghost t: Table)
      requires OrderOk(head, hh.next, hh.prev, tbl.tail, tbl.numItems, t) && Nodes(t.order) && x in t.order && t.order != [x]
      modifies this`head, this`hh, this`tbl
      ensures OrderOk(head, hh.next, hh.prev, tbl.tail, tbl.numItems, t.(order := Remove(t.order, x)))
      ensures hh == old(hh).(next := hh.next, prev := hh.prev)
      ensures tbl == old(tbl).(tail := tbl.tail, numItems := tbl.numItems)
    {
      hide TwoWay, Nodes, Remove;
      UnlinkLinks(hh.next, hh.prev, t.order, x);
      NodesDistinct(t.order);
      if x == tbl.tail {
        tbl := tbl.(tail := hh.prev[x]);
      }
      if hh.prev[x] != NULL {
        hh := hh.(next := hh.next[hh.prev[x] := hh.next[x]]);
      } else {
        head := hh.next[x];
      }
      if hh.next[x] != NULL {
        hh := hh.(prev := hh.prev[hh.next[x] := hh.prev[x]]);
      }
      tbl := tbl.(numItems := tbl.numItems - 1);
    }

    /** HASH_DEL_IN_BKT */
    method UnlinkFromBucket(b: nat, x: Ptr, ghost t: Table)
      requires |t.chains| > 0 && Stored(t, hash) && x in t.order && t.order != [x]
      requires b == Slot(t.key, hash, |t.chains|, x) && BucketsOk(hh.hhNext, hh.hhPrev, buckets[..], t)
      modifies this`hh, buckets
      ensures BucketsOk(hh.hhNext, hh.hhPrev, buckets[..], Delete(t, x, hash))
      ensures hh == old(hh).(hhNext := hh.hhNext, hhPrev := hh.hhPrev)
    {
      hide Stored, ChainsLinked, Slot, Remove, Nodes;
      UnlinkedChains(t, hash, x, hh.hhNext, hh.hhPrev);
      var bucket := buckets[b];
      bucket := bucket.(count := bucket.count - 1);
      if bucket.hhHead == x {
        bucket := bucket.(hhHead := hh.hhNext[x]);
      }
      if hh.hhPrev[x] != NULL {
        hh := hh.(hhNext := hh.hhNext[hh.hhPrev[x] := hh.hhNext[x]]);
      }
      if hh.hhNext[x] != NULL {
        hh := hh.(hhPrev := hh.hhPrev[hh.hhNext[x] := hh.hhPrev[x]]);
      }
      buckets[b] := bucket;
    }

    /** HASH_DELETE */
    method DeleteItem(x: Ptr)
      requires Valid() && x in view.order
      modifies this, buckets
      ensures Valid() && view == Delete(old(view), x, hash)
      ensures buckets == old(buckets)
    {
      hide WF, TwoWay, BucketsOk, Covers, Nodes, Remove;
      ghost var t := view;
      WFGives(t, hash);
      UnlinkLinks(hh.next, hh.prev, t.order, x);
      view := Delete(t, x, hash);
      DeleteWF(t, x, hash);
      if hh.prev[x] == NULL && hh.next[x] == NULL {
        head := NULL;
      } else {
        UnlinkFromOrder(x, t);
        MaskIsRemainder(hh.hashv[x], t.log2);
        var b := BitAnd(hh.hashv[x], tbl.numBuckets - 1);
        UnlinkFromBucket(b, x, t);
        DeletedKeys(hh.key, hh.hashv, hash, t, x);
        if useBloom { CoversShrinks(bloom, bloomBits, hash, t, x); }
      }
    }

    /** HASH_FIND, with or without the Bloom filter: the answer is the same. */
    method FindItem(k: Key) returns (out: Ptr)
      requires Valid()
      ensures out == Find(view, k, hash)
      ensures out != NULL ==> out in view.order && view.key[out] == k
      ensures out == NULL ==> forall x | x in view.order :: view.key[x] != k
    {
      hide WF, TwoWay, Covers, ChainsLinked, CellsMatch, FirstMatch;
      WFGives(view, hash);
      HashRuns.FindExact(view, k, hash);
      out := NULL;
      if head != NULL {
        var hashv := hash(k);
        MaskIsRemainder(hashv, view.log2);
        MaskIsRemainder(hashv, bloomBits);
        var b := BitAnd(hashv, tbl.numBuckets - 1);
        if useBloom { FilterMisses(bloom, bloomBits, hash, view, k); }
        if !useBloom || BitTest(bloom, BitAnd(hashv, Pow2(bloomBits) - 1)) {
          out := FindInBucket(b, k);
        }
      }
    }

    /** HASH_FIND_IN_BKT */
    method FindInBucket(b: nat, k: Key) returns (out: Ptr)
      requires Valid() && head != NULL && b < |view.chains|
      ensures out == FirstMatch(view.chains[b], view.key, k)
    {
      hide WF, TwoWay, Covers;
      WFGives(view, hash);
      StoredNonNull(view, hash, b);
      ghost var c := view.chains[b];
      assert TwoWay(hh.hhNext, hh.hhPrev, c);
      out := buckets[b].hhHead;
      ghost var m := 0;
      assert c[0..] == c;
      while out != NULL
        invariant m <= |c| && out == Head(c[m..])
        invariant FirstMatch(c[m..], view.key, k) == FirstMatch(c, view.key, k)
        decreases |c| - m
      {
        InChain(view, hash, b, out);
        if |hh.key[out]| == |k| {
          if hh.key[out] == k { break; }
        }
        TwoWayAt(hh.hhNext, hh.hhPrev, c, m);
        assert c[m..][1..] == c[m + 1..];
        out := hh.hhNext[out];
        m := m + 1;
      }
    }

    /** The body of HASH_SRT for a table that exists. */
    method SortOrder(cmp: Compare<Ptr>, ghost t: Table)
      requires OrderOk(head, hh.next, hh.prev, tbl.tail, tbl.numItems, t) && Nodes(t.order) && 0 < |t.order| < 0x1_0000_0000
      modifies this`head, this`hh, this`tbl
      ensures OrderOk(head, hh.next, hh.prev, tbl.tail, tbl.numItems, Sorting(t, cmp)) && head != NULL
      ensures hh == old(hh).(next := hh.next, prev := hh.prev)
      ensures tbl == old(tbl).(tail := tbl.tail)
    {
      hide Nodes, BottomUp, InsertionSort, TwoWay;
      SortReady(hh.next, hh.prev, t.order);
      var next, prev, list, tail := ListSort.Sort(ListSort.AppOrder, hh.next, hh.prev, head, cmp, t.order);
      SortDone(next, prev, t.order, BottomUp(t.order, 1, cmp));
      hh := hh.(next := next, prev := prev);
      tbl := tbl.(tail := tail);
      head := list;
    }

    /** HASH_SRT: the app order is sorted; no chain and so no lookup changes. */
    method SortItems(cmp: Compare<Ptr>)
      requires Valid() && |view.order| < 0x1_0000_0000
      modifies this
      ensures Valid() && view == Sorting(old(view), cmp)
      ensures TotalPreorder(cmp) ==> view.order == InsertionSort(old(view.order), cmp)
      ensures |view.chains| > 0 && forall k :: Find(view, k, hash) == Find(old(view), k, hash)
      ensures buckets == old(buckets)
    {
      hide WF, BucketsOk, OrderOk, Covers, Nodes, BottomUp, InsertionSort, KeysOk, TwoWay, TotalPreorder;
      ghost var t := view;
      WFGives(t, hash);
      SortingWF(t, cmp, hash);
      SortedBuckets(hh.hhNext, hh.hhPrev, buckets[..], t, cmp);
      SortedKeys(hh.key, hh.hashv, hash, t, cmp);
      if useBloom { CoversSorted(bloom, bloomBits, hash, t, cmp); }
      if TotalPreorder(cmp) { BottomUpIsInsertionSort(t.order, cmp); }
      assert |BottomUp(t.order, 1, cmp)| == |t.order|;
      if head != NULL {
        SortOrder(cmp, t);
      }
      view := Sorting(t, cmp);
    }

    /** HASH_FSCK: none of its complaints is ever raised. */
    method Fsck() returns (ok: bool)
      requires Valid()
      ensures ok
    {
      hide WF, TwoWay, Covers, Nodes, Sum, Counts;
      ok := true;
      WFGives(view, hash);
      StoredGives(view, hash);
      CountsCover(view, hash);
      if head != NULL {
        var count, i := 0, 0;
        SumFrom(view.chains, 0);
        while i < tbl.numBuckets
          invariant i <= |view.chains| && ok
          invariant count + Sum(Counts(view.chains[i..])) == |view.order|
        {
          ChainNodes(view, hash, i);
          SumFrom(view.chains, i);
          var bktCount, good := WalkList(hh.hhNext, hh.hhPrev, buckets[i].hhHead, view.chains[i]);
          count := count + bktCount;
          ok := ok && good && buckets[i].count == bktCount;
          i := i + 1;
        }
        SumFrom(view.chains, i);
        ok := ok && count == tbl.numItems;
        var items, good := WalkList(hh.next, hh.prev, head, view.order);
        ok := ok && good && items == tbl.numItems;
      }
    }

    /** `x ? x->hh.next : NULL`, where x is the element after those of a. */
    method NextOf(x: Ptr, ghost a: seq<Ptr>, ghost b: seq<Ptr>) returns (r: Ptr)
      requires Valid() && view.order == a + b && x == Head(b)
      ensures x == NULL <==> b == []
      ensures r == if b == [] then NULL else Head(b[1..])
    {
      hide WF, Covers, BucketsOk, KeysOk, TwoWay, Nodes, PolicyOk;
      WFGives(view, hash);
      NodesDistinct(view.order);
      if b != [] {
        assert b[0] == view.order[|a|] && view.order[|a| + 1..] == b[1..];
        TwoWayAt(hh.next, hh.prev, view.order, |a|);
      }
      r := if x != NULL then hh.next[x] else NULL;
    }

    /** HASH_ITER over a body that may delete the element it is at: every element is visited
        once, in order, and those not deleted keep their order. */
    method DeleteWhere(p: Ptr -> bool) returns (visited: seq<Ptr>)
      requires Valid()
      modifies this, buckets
      ensures Valid() && buckets == old(buckets)
      ensures visited == old(view.order)
      ensures view.order == Keep(old(view.order), p) && view.key == old(view.key)
    {
      hide Valid, Keep;
      ghost var done, rest := [], view.order;
      HeadOfOrder();
      var el := head;
      var tmp := NextOf(el, [], rest);
      visited := [];
      KeepNone(p);
      while el != NULL
        invariant Valid() && buckets == old(buckets) && view.key == old(view.key)
        invariant visited == done && done + rest == old(view.order)
        invariant view.order == Keep(done, p) + rest
        invariant (el == NULL <==> rest == []) && el == Head(rest)
        invariant el != NULL ==> tmp == Head(rest[1..])
        decreases |rest|
      {
        visited := visited + [el];
        Visit(el, p, done, rest);
        done, rest := done + [el], rest[1..];
        el := tmp;
        tmp := NextOf(el, Keep(done, p), rest);
      }
    }

    /** The loop body at el: delete it if p holds. */
    method Visit(el: Ptr, p: Ptr -> bool, ghost done: seq<Ptr>, ghost rest: seq<Ptr>)
      requires Valid() && rest != [] && el == rest[0] && view.order == Keep(done, p) + rest
      modifies this, buckets
      ensures Valid() && buckets == old(buckets) && view.key == old(view.key)
      ensures view.order == Keep(done + [el], p) + rest[1..]
    {
      hide Valid, Keep, Delete;
      KeepNext(done, el, p);
      if p(el) {
        DropElement(Keep(done, p), rest);
        DeleteItem(el);
      } else {
        assert rest == [el] + rest[1..];
      }
    }

    lemma HeadOfOrder()
      requires Valid()
      ensures head == Head(view.order)
    {
    }

    lemma DropElement(a: seq<Ptr>, b: seq<Ptr>)
      requires Valid() && view.order == a + b && b != []
      ensures |view.chains| > 0 && b[0] in view.order
      ensures Delete(view, b[0], hash).order == a + b[1..] && Delete(view, b[0], hash).key == view.key
    {
      hide WF, Represents, Delete, Nodes, Remove;
      WFGives(view, hash);
      assert view.order[|a|] == b[0] && view.order[..|a|] == a && view.order[|a| + 1..] == b[1..];
      RemoveAt(view.order, |a|);
      HashRuns.DeleteShape(view, b[0], hash);
    }
  }

  /** A walk of HASH_FSCK along a list, counting and comparing the back links. */
  method WalkList(next: Field, prev: Field, first: Ptr, ghost s: seq<Ptr>) returns (count: nat, ok: bool)
    requires TwoWay(next, prev, s) && Nodes(s) && first == Head(s)
    ensures ok && count == |s|
  {
    hide TwoWay, Nodes;
    NodesDistinct(s);
    count, ok := 0, true;
    var last, thh := NULL, first;
    assert s[0..] == s;
    while thh != NULL
      invariant ok && count <= |s| && thh == Head(s[count..]) && last == Last(s[..count])
      decreases |s| - count
    {
      TwoWayAt(next, prev, s, count);
      ok := ok && prev[thh] == last;
      count := count + 1;
      last := thh;
      thh := next[thh];
    }
  }

  lemma SumFrom(chains: seq<seq<Ptr>>, i: nat)
    requires i <= |chains|
    ensures chains[0..] == chains
    ensures Sum(Counts(chains[i..])) == if i < |chains| then |chains[i]| + Sum(Counts(chains[i + 1..])) else 0
  {
    if i < |chains| { assert Counts(chains[i..])[1..] == Counts(chains[i + 1..]); }
  }

  /** s without the elements that satisfy p. */
  function Keep(s: seq<Ptr>, p: Ptr -> bool): seq<Ptr> {
    if s == [] then [] else Keep(s[..|s| - 1], p) + if p(s[|s| - 1]) then [] else [s[|s| - 1]]
  }

  lemma KeepNone(p: Ptr -> bool)
    ensures Keep([], p) == []
  {
  }

  lemma KeepNext(s: seq<Ptr>, x: Ptr, p: Ptr -> bool)
    ensures Keep(s + [x], p) == Keep(s, p) + if p(x) then [] else [x]
  {
    assert (s + [x])[..|s|] == s;
  }

  lemma IdealIsCeilDiv(items: nat, log2: nat)
    requires items > 0
    ensures Pow2(log2) > 0 && IdealLength(items, log2) == CeilDiv(items, 2 * Pow2(log2)) > 0
  {
    hide IsCeil;
    IdealIsCeil(items, log2);
    MaskIsRemainder(items, log2 + 1);
    ShiftIsQuotient(items, log2 + 1);
  }

  lemma MidwayStarts(t: Table, hash: HashFunction, hh: Handles, cells: seq<Bucket>, ideal: nat, empty: seq<Bucket>)
    requires |t.chains| > 0 && ideal > 0 && BucketsOk(hh.hhNext, hh.hhPrev, cells, t)
    requires |empty| == 2 * |t.chains| && forall j | 0 <= j < |empty| :: empty[j] == Bucket(NULL, 0, 0)
    ensures Midway(t, hash, hh.hhNext, hh.hhPrev, ideal, 0, empty, 0, 0)
    ensures |cells| == |t.chains| && forall j | 0 <= j < |t.chains| :: cells[j].hhHead == Head(t.chains[j])
  {
    hide Linked, BackLinked, Midway;
    forall j | 0 <= j < |t.chains| ensures Linked(hh.hhNext, t.chains[j], NULL) {
      assert TwoWay(hh.hhNext, hh.hhPrev, t.chains[j]);
    }
    MidwayStart(t, hash, hh.hhNext, hh.hhPrev, ideal, empty);
  }

  lemma MidwayEnds(t: Table, hash: HashFunction, hh: Handles, ideal: nat, nonideal: nat, cells: seq<Bucket>)
    requires |t.chains| > 0 && ideal == CeilDiv(|t.order|, 2 * |t.chains|) > 0
    requires Midway(t, hash, hh.hhNext, hh.hhPrev, ideal, nonideal, cells, |t.chains|, 0)
    ensures BucketsOk(hh.hhNext, hh.hhPrev, cells, Expand(t, hash)) && nonideal == Expand(t, hash).nonideal
  {
    hide TwoWay, Excess, NewChain, CeilDiv;
    SoFarEnd(t.chains, t.key, hash);
    var chains := Spread(t.chains, t.key, hash);
    forall j | 0 <= j < |chains| ensures TwoWay(hh.hhNext, hh.hhPrev, chains[j]) {
      assert SoFar(t.chains, t.key, hash, |t.chains|, 0)[j] == chains[j];
      assert TwoWay(hh.hhNext, hh.hhPrev, NewChain(t.chains, t.key, hash, |t.chains|, 0, j));
    }
  }

  lemma StoredNonNull(t: Table, hash: HashFunction, j: nat)
    requires Stored(t, hash) && j < |t.chains|
    ensures NULL !in t.chains[j]
  {
    ChainNodes(t, hash, j);
    NodesDistinct(t.chains[j]);
  }

  lemma DeletedKeys(key: map<Ptr, Key>, hashv: map<Ptr, nat>, hash: HashFunction, t: Table, x: Ptr)
    requires |t.chains| > 0 && KeysOk(key, hashv, hash, t)
    ensures KeysOk(key, hashv, hash, Delete(t, x, hash))
  {
    hide Remove;
    forall y | y in Delete(t, x, hash).order ensures y in t.order { InRemove(t.order, x, y); }
  }

  lemma SortedKeys(key: map<Ptr, Key>, hashv: map<Ptr, nat>, hash: HashFunction, t: Table, cmp: Compare<Ptr>)
    requires KeysOk(key, hashv, hash, t)
    ensures KeysOk(key, hashv, hash, Sorting(t, cmp))
  {
    hide BottomUp;
    forall y | y in Sorting(t, cmp).order ensures y in t.order { HashRuns.InSorted(t.order, cmp, y); }
  }

  lemma SortedBuckets(hhNext: Field, hhPrev: Field, cells: seq<Bucket>, t: Table, cmp: Compare<Ptr>)
    ensures BucketsOk(hhNext, hhPrev, cells, t) <==> BucketsOk(hhNext, hhPrev, cells, Sorting(t, cmp))
  {
  }

  lemma SortReady(next: Field, prev: Field, s: seq<Ptr>)
    requires TwoWay(next, prev, s)
    ensures Linked(next, s, ListSort.End(ListSort.AppOrder, s)) && forall x | x in s :: x in prev
  {
  }

  lemma SortDone(next: Field, prev: Field, s: seq<Ptr>, sorted: seq<Ptr>)
    requires ListSort.Shape(ListSort.AppOrder, next, prev, sorted) && multiset(s) == multiset(sorted) && s != []
    ensures TwoWay(next, prev, sorted) && |sorted| == |s| && Head(sorted) != NULL
  {
    ListSort.SameLength(s, sorted);
    NodesDistinct(sorted);
  }

  lemma CoversShrinks(bv: seq<bv8>, nbits: nat, hash: HashFunction, t: Table, x: Ptr)
    requires |t.chains| > 0 && Covers(bv, nbits, hash, t)
    ensures Covers(bv, nbits, hash, Delete(t, x, hash))
  {
    hide Remove, BitTest;
    forall y | y in Delete(t, x, hash).order ensures y in t.order { InRemove(t.order, x, y); }
  }

  lemma CoversSorted(bv: seq<bv8>, nbits: nat, hash: HashFunction, t: Table, cmp: Compare<Ptr>)
    ensures Covers(bv, nbits, hash, t) ==> Covers(bv, nbits, hash, Sorting(t, cmp))
  {
    hide BottomUp, BitTest;
    forall y | y in Sorting(t, cmp).order ensures y in t.order { HashRuns.InSorted(t.order, cmp, y); }
  }

  /** Where the filter's bit is clear, no stored item has the key. */
  lemma FilterMisses(bv: seq<bv8>, nbits: nat, hash: HashFunction, t: Table, k: Key)
    requires WF(t, hash) && Covers(bv, nbits, hash, t)
    ensures |t.chains| > 0 && (hash(k) % Pow2(nbits)) / 8 < |bv|
    ensures !BitTest(bv, hash(k) % Pow2(nbits)) ==> Find(t, k, hash) == NULL
  {
    hide Find, BitTest, Pow2;
    HashRuns.WFSize(t, hash);
    HashRuns.FindExact(t, k, hash);
    InRange(hash(k), nbits);
  }

  lemma TwoWayAt(next: Field, prev: Field, s: seq<Ptr>, i: nat)
    requires TwoWay(next, prev, s) && i < |s|
    ensures s[i] in next && next[s[i]] == Head(s[i + 1..])
    ensures s[i] in prev && prev[s[i]] == Last(s[..i])
  {
    LinkedAt(next, s, NULL, i);
    BackLinkedAt(prev, s, NULL, i);
  }

  lemma WFGives(t: Table, hash: HashFunction)
    requires WF(t, hash)
    ensures Dims(t) && Stored(t, hash) && Nodes(t.order) && |t.chains| > 0
  {
  }
}
