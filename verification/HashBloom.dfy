/** The Bloom filter of uthash: a bit vector in bytes, indexed by the low bits of the hash. */
module HashBloom {
  import opened Pointers
  import opened HashPolicy
  import opened HashSpec

  /** HASH_BLOOM_BYTELEN for 2^nbits bits. */
  function ByteLen(nbits: nat): nat {
    Pow2(nbits) / 8 + if Pow2(nbits) % 8 != 0 then 1 else 0
  }

  function Mask(idx: nat): bv8 { (1 as bv8) << (idx % 8) }

  /** HASH_BLOOM_BITTEST */
  predicate BitTest(bv: seq<bv8>, idx: nat)
    requires idx / 8 < |bv|
  {
    bv[idx / 8] & Mask(idx) != 0
  }

  /** HASH_BLOOM_BITSET */
  function BitSet(bv: seq<bv8>, idx: nat): seq<bv8>
    requires idx / 8 < |bv|
  {
    bv[idx / 8 := bv[idx / 8] | Mask(idx)]
  }

  lemma MaskNonZero(idx: nat)
    ensures Mask(idx) != 0
  {
    var k := idx % 8;
    assert k == 0 || k == 1 || k == 2 || k == 3 || k == 4 || k == 5 || k == 6 || k == 7;
  }

  lemma OrSets(b: bv8, m: bv8)
    requires m != 0
    ensures (b | m) & m != 0
  {
    assert (b | m) & m == m;
  }

  lemma OrKeeps(b: bv8, m: bv8, c: bv8)
    requires b & c != 0
    ensures (b | m) & c != 0
  {
  }

  lemma SetBitIsSet(bv: seq<bv8>, idx: nat)
    requires idx / 8 < |bv|
    ensures BitTest(BitSet(bv, idx), idx)
  {
    hide Mask;
    MaskNonZero(idx);
    OrSets(bv[idx / 8], Mask(idx));
  }

  lemma SetBitClearsNone(bv: seq<bv8>, idx: nat, other: nat)
    requires idx / 8 < |bv| && other / 8 < |bv| && BitTest(bv, other)
    ensures BitTest(BitSet(bv, idx), other)
  {
    hide Mask;
    if other / 8 == idx / 8 { OrKeeps(bv[other / 8], Mask(idx), Mask(other)); }
  }

  /** Setting a bit sets it and clears none. */
  lemma BitSetSets(bv: seq<bv8>, idx: nat, other: nat)
    requires idx / 8 < |bv| && other / 8 < |bv|
    ensures BitTest(BitSet(bv, idx), idx)
    ensures BitTest(bv, other) ==> BitTest(BitSet(bv, idx), other)
  {
    hide BitTest, Mask;
    BitSetLength(bv, idx);
    SetBitIsSet(bv, idx);
    if BitTest(bv, other) { SetBitClearsNone(bv, idx, other); }
  }

  lemma InRange(h: nat, nbits: nat)
    ensures (h % Pow2(nbits)) / 8 < ByteLen(nbits)
  {
  }

  /** The bit of every stored item is in range and set. */
  ghost predicate Covers(bv: seq<bv8>, nbits: nat, hash: HashFunction, t: Table) {
    && |bv| == ByteLen(nbits)
    && forall x {:trigger t.key[x]} | x in t.order && x in t.key ::
         (hash(t.key[x]) % Pow2(nbits)) / 8 < |bv| && BitTest(bv, hash(t.key[x]) % Pow2(nbits))
  }

  /** Adding an item sets its bit, so the new table is covered. */
  lemma CoversGrows(bv: seq<bv8>, nbits: nat, hash: HashFunction, t: Table, x: Ptr, k: Key, t': Table)
    requires Covers(bv, nbits, hash, t)
    requires t'.order == t.order + [x] && t'.key == t.key[x := k]
    ensures (hash(k) % Pow2(nbits)) / 8 < |bv| && Covers(BitSet(bv, hash(k) % Pow2(nbits)), nbits, hash, t')
  {
    hide BitTest, BitSet, Pow2;
    InRange(hash(k), nbits);
    var bv' := BitSet(bv, hash(k) % Pow2(nbits));
    BitSetLength(bv, hash(k) % Pow2(nbits));
    forall y {:trigger t'.key[y]} | y in t'.order && y in t'.key
      ensures (hash(t'.key[y]) % Pow2(nbits)) / 8 < |bv'| && BitTest(bv', hash(t'.key[y]) % Pow2(nbits))
    {
      if y != x { assert y in t.order && t.key[y] == t'.key[y]; }
      InRange(hash(t'.key[y]), nbits);
      BitSetSets(bv, hash(k) % Pow2(nbits), hash(t'.key[y]) % Pow2(nbits));
    }
  }

  lemma BitSetLength(bv: seq<bv8>, idx: nat)
    requires idx / 8 < |bv|
    ensures |BitSet(bv, idx)| == |bv|
  {
  }

  lemma EmptyCovered(bv: seq<bv8>, nbits: nat, hash: HashFunction, t: Table)
    requires t.order == [] && |bv| == ByteLen(nbits)
    ensures Covers(bv, nbits, hash, t)
  {
  }
}
