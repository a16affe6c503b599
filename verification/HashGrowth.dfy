/** When a uthash table grows, and when it stops growing: an addition expands it exactly if the item's
    bucket has reached its limit, and growth is switched off exactly by two expansions in a row that
    each leave more than half of the items beyond the ideal chain length. */
module HashGrowth {
  import opened Pointers
  import opened HashPolicy
  import opened HashSpec
  import opened SortSpec
  import opened HashRuns

  // ---- One expansion ----

  /** How many items sit deeper in their chain than `ideal`. */
  function Beyond(chains: seq<seq<Ptr>>, ideal: nat): nat {
    if chains == [] then 0
    else Beyond(chains[..|chains| - 1], ideal) + if |chains[|chains| - 1]| > ideal then |chains[|chains| - 1]| - ideal else 0
  }

  lemma {:induction false} ExcessAppend(s: seq<nat>, c: nat, ideal: nat)
    ensures Excess(s + [c], ideal) == Excess(s, ideal) + if c > ideal then c - ideal else 0
  {
    if s == [] {
      assert (s + [c])[1..] == [];
    } else {
      ExcessAppend(s[1..], c, ideal);
      assert (s + [c])[1..] == s[1..] + [c];
    }
  }

  lemma {:induction false} BeyondIsExcess(chains: seq<seq<Ptr>>, ideal: nat)
    ensures Excess(Counts(chains), ideal) == Beyond(chains, ideal)
  {
    if chains != [] {
      var n := |chains| - 1;
      BeyondIsExcess(chains[..n], ideal);
      assert Counts(chains) == Counts(chains[..n]) + [|chains[n]|];
      ExcessAppend(Counts(chains[..n]), |chains[n]|, ideal);
    }
  }

  /** More than half of the items are beyond the least integer at or above items per bucket. */
  ghost predicate Lopsided(t: Table)
    requires |t.chains| > 0
  {
    exists ideal: nat :: IsCeil(|t.order|, |t.chains|, ideal) && 2 * Beyond(t.chains, ideal) > |t.order| + if |t.order| % 2 == 1 then -1 else 0
  }

  /** The figures as an expansion computes them. */
  ghost predicate FreshFigures(t: Table) {
    && |t.mult| == |t.chains| && t.ideal > 0 && IsCeil(|t.order|, |t.chains|, t.ideal)
    && t.nonideal == Beyond(t.chains, t.ideal)
    && forall j | 0 <= j < |t.mult| :: t.mult[j] == if |t.chains[j]| > t.ideal then |t.chains[j]| / t.ideal else 0
  }

  lemma CeilUnique(n: nat, b: nat, p: nat, q: nat)
    requires b > 0 && IsCeil(n, b, p) && IsCeil(n, b, q)
    ensures p == q
  {
    if p < q { MulStep(p, q, b); } else if q < p { MulStep(q, p, b); }
  }

  lemma MulStep(p: nat, q: nat, b: nat)
    requires p < q && b > 0
    ensures p * b <= (q - 1) * b
  {
  }

  /** An expansion counts as ineffective exactly if it leaves the table lopsided, and an effective one
      starts the count afresh. */
  lemma IneffectiveExactly(t: Table, hash: HashFunction)
    requires |t.chains| > 0 && t.order != []
    ensures var t' := Expand(t, hash);
            && |t'.chains| == 2 * |t.chains| && FreshFigures(t')
            && t'.ineff == (if Lopsided(t') then t.ineff + 1 else 0)
            && t'.noexpand == (t.noexpand || t'.ineff > 1)
  {
    hide IsCeil, Spread, Excess, Beyond, Mults;
    var t' := Expand(t, hash);
    ExpandBookkeeping(t, hash);
    BeyondIsExcess(t'.chains, t'.ideal);
    forall ideal: nat | IsCeil(|t'.order|, |t'.chains|, ideal) ensures ideal == t'.ideal {
      CeilUnique(|t'.order|, |t'.chains|, ideal, t'.ideal);
    }
  }

  // ---- One operation ----

  /** The table's bookkeeping. */
  predicate SameFigures(t: Table, t': Table) {
    && |t'.chains| == |t.chains| && t'.mult == t.mult && t'.log2 == t.log2 && t'.ideal == t.ideal
    && t'.nonideal == t.nonideal && t'.ineff == t.ineff && t'.noexpand == t.noexpand
  }

  /** The bucket of the added item has reached ten times its multiplier plus one, and growth is on. */
  predicate Fills(t: Table, op: Op, hash: HashFunction)
    requires |t.chains| == |t.mult| > 0
  {
    op.AddItem? && !t.noexpand &&
    var j := hash(op.k) % |t.chains|; |t.chains[j]| + 1 >= 10 * (t.mult[j] + 1)
  }

  lemma SortedSize(s: seq<Ptr>, cmp: Compare<Ptr>)
    ensures |BottomUp(s, 1, cmp)| == |s|
  {
    BottomUpIsPermutation(s, 1, cmp);
    assert |multiset(BottomUp(s, 1, cmp))| == |multiset(s)|;
  }

  lemma {:induction false} RemoveEmpties(s: seq<Ptr>, x: Ptr)
    requires Nodes(s) && x in s && Remove(s, x) == []
    ensures s == [x]
  {
    NodesDistinct(s);
    if s != [x] {
      var i: nat :| i < |s| && s[i] != x;
      InRemove(s, x, s[i]);
    }
  }

  /** What an operation does to the size of the bucket array and to the figures. */
  lemma StepFigures(t: Table, op: Op, hash: HashFunction)
    requires WF(t, hash) && Legal(t, op)
    ensures |t.chains| == |t.mult| > 0
    ensures var t' := Apply(t, op, hash);
            && |t'.chains| > 0
            && (t'.order == [] ==> t' == Made(t'.key) || (t.order == [] && SameFigures(t, t') && t'.chains == t.chains))
            && (Fills(t, op, hash) ==>
                  && |t'.chains| == 2 * |t.chains| && t'.log2 == t.log2 + 1 && t'.order != [] && !t.noexpand && FreshFigures(t')
                  && t'.ineff == (if Lopsided(t') then t.ineff + 1 else 0) && t'.noexpand == (t'.ineff > 1))
            && (!Fills(t, op, hash) && t'.order != [] ==> SameFigures(t, t'))
  {
    hide Holds, PolicyKept, Expand, BottomUp, Remove, Lopsided, FreshFigures;
    var t' := Apply(t, op, hash);
    match op
    case AddItem(x, k) => AddFigures(t, x, k, hash);
    case DeleteItem(x) =>
      DeleteShape(t, x, hash);
      StoredGives(t, hash);
      if t'.order == [] { RemoveEmpties(t.order, x); }
    case SortItems(cmp) => SortedSize(t.order, cmp);
  }

  lemma AddFigures(t: Table, x: Ptr, k: Key, hash: HashFunction)
    requires |t.chains| == |t.mult| > 0
    ensures var t' := Add(t, x, k, hash);
            if Fills(t, AddItem(x, k), hash) then
              && |t'.chains| == 2 * |t.chains| && t'.log2 == t.log2 + 1 && t'.order != [] && FreshFigures(t')
              && t'.ineff == (if Lopsided(t') then t.ineff + 1 else 0) && t'.noexpand == (t'.ineff > 1)
            else SameFigures(t, t') && t'.order != []
  {
    hide Spread, Excess, Mults, Lopsided, FreshFigures;
    IneffectiveExactly(Insertion(t, x, k, hash), hash);
  }

  // ---- Runs ----

  /** Operation b grows the bucket array. */
  predicate Grows(states: seq<Table>, b: nat) { b + 1 < |states| && |states[b + 1].chains| > |states[b].chains| }

  /** The table has held an item in every state after a up to i. */
  ghost predicate HeldSince(states: seq<Table>, a: nat, i: nat)
    requires i < |states|
  {
    forall j | a < j <= i :: states[j].order != []
  }

  /** Operation b is the last before state i that grew the table, which has not been made anew since. */
  ghost predicate LastGrowth(states: seq<Table>, b: nat, i: nat)
    requires i < |states|
  {
    b < i && Grows(states, b) && (forall j: nat | b < j < i :: !Grows(states, j)) && HeldSince(states, b, i)
  }

  /** Operation b leaves the table lopsided. */
  ghost predicate GrowsLopsided(states: seq<Table>, b: nat) {
    b + 1 < |states| && |states[b + 1].chains| > 0 && Lopsided(states[b + 1])
  }

  /** Operations a and b are successive expansions of the table that state i has, both ineffective. */
  ghost predicate IneffectivePair(states: seq<Table>, a: nat, b: nat, i: nat)
    requires i < |states|
  {
    && b < i && LastGrowth(states, a, b) && Grows(states, b) && HeldSince(states, a, i)
    && GrowsLopsided(states, a) && GrowsLopsided(states, b)
  }

  ghost predicate LastWasLopsided(states: seq<Table>, i: nat)
    requires i < |states|
  {
    exists b: nat :: LastGrowth(states, b, i) && GrowsLopsided(states, b)
  }

  ghost predicate HasPair(states: seq<Table>, i: nat)
    requires i < |states|
  {
    exists a: nat, b: nat :: IneffectivePair(states, a, b, i)
  }

  lemma RunStep(states: seq<Table>, ops: seq<Op>, hash: HashFunction, i: nat)
    requires IsRun(states, ops, hash) && i < |ops|
    ensures WF(states[i], hash) && Legal(states[i], ops[i]) && |states[i].chains| == |states[i].mult| > 0
    ensures states[i + 1] == Apply(states[i], ops[i], hash)
  {
    hide WF, Apply, Legal;
    RunWF(states, ops, hash, i);
    assert Legal(states[i], ops[i]);
  }

  /** An empty table is a fresh one: 32 empty buckets and all figures zero. */
  lemma {:induction false} EmptyIsMade(states: seq<Table>, ops: seq<Op>, hash: HashFunction, i: nat)
    requires IsRun(states, ops, hash) && i <= |ops| && states[i].order == []
    ensures states[i] == Made(states[i].key)
    ensures ZeroFigures(states[i]) && forall j | 0 <= j < |states[i].chains| :: states[i].chains[j] == []
  {
    hide WF, Legal, Apply, ZeroFigures;
    if i > 0 {
      RunStep(states, ops, hash, i - 1);
      StepFigures(states[i - 1], ops[i - 1], hash);
      if states[i - 1].order == [] {
        EmptyIsMade(states, ops, hash, i - 1);
        EmptyStaysMade(states[i - 1], ops[i - 1], hash);
      }
    }
    SameAsMade(states[i]);
    ZeroAsMade(states[i]);
  }

  lemma EmptyStaysMade(t: Table, op: Op, hash: HashFunction)
    requires t == Made(t.key) && Legal(t, op)
    ensures |t.chains| == |t.mult| > 0
    ensures var t' := Apply(t, op, hash); t'.order == [] ==> t' == Made(t'.key)
  {
    hide Add, BottomUp;
    assert |t.chains| == Pow2(INITIAL_LOG2) > 0;
    if op.AddItem? { AddShape(t, op.x, op.k, hash); }
  }

  /** In every run an operation grows the bucket array exactly if it adds an item to a bucket that this
      fills, and then to twice its size. */
  lemma GrowsExactly(states: seq<Table>, ops: seq<Op>, hash: HashFunction, i: nat)
    requires IsRun(states, ops, hash) && i < |ops|
    ensures |states[i].chains| == |states[i].mult| > 0
    ensures Grows(states, i) <==> Fills(states[i], ops[i], hash)
    ensures Grows(states, i) ==> |states[i + 1].chains| == 2 * |states[i].chains|
  {
    hide WF, Legal, Apply, Fills, SameFigures;
    RunStep(states, ops, hash, i);
    StepFigures(states[i], ops[i], hash);
    RunWF(states, ops, hash, i);
    AtLeastInitial(states, ops, hash, i);
    if states[i + 1].order == [] { EmptyIsMade(states, ops, hash, i + 1); MadeSize(states[i + 1].key); }
    if !Fills(states[i], ops[i], hash) && states[i + 1].order != [] { FiguresSize(states[i], states[i + 1]); }
  }

  lemma MadeSize(key: map<Ptr, Key>)
    ensures |Made(key).chains| == 32
  {
    assert Pow2(5) == 32;
  }

  /** 32 buckets, and all figures zero. */
  ghost predicate ZeroFigures(t: Table) {
    && |t.chains| == |t.mult| == 32 && t.log2 == 5 && (forall j | 0 <= j < 32 :: t.mult[j] == 0)
    && t.ideal == 0 && t.nonideal == 0 && t.ineff == 0 && !t.noexpand
  }

  lemma ZeroAsMade(t: Table)
    requires SameFigures(Made(map[]), t)
    ensures ZeroFigures(t)
  {
    MadeSize(map[]);
  }

  lemma FiguresSize(t: Table, t': Table)
    requires SameFigures(t, t')
    ensures |t'.chains| == |t.chains|
  {
  }

  lemma {:induction false} AtLeastInitial(states: seq<Table>, ops: seq<Op>, hash: HashFunction, i: nat)
    requires IsRun(states, ops, hash) && i <= |ops|
    ensures |states[i].chains| >= 32
  {
    hide WF, Legal, Apply, Fills;
    if i == 0 {
      MadeSize(map[]);
    } else {
      AtLeastInitial(states, ops, hash, i - 1);
      RunStep(states, ops, hash, i - 1);
      StepFigures(states[i - 1], ops[i - 1], hash);
      if states[i].order == [] { EmptyIsMade(states, ops, hash, i); MadeSize(states[i].key); }
    }
  }

  /** How the marks of past expansions change by one operation. */
  lemma LastGrowthStep(states: seq<Table>, b: nat, i: nat)
    requires i + 1 < |states|
    ensures b < i ==> (LastGrowth(states, b, i + 1) <==> LastGrowth(states, b, i) && !Grows(states, i) && states[i + 1].order != [])
    ensures b == i ==> (LastGrowth(states, b, i + 1) <==> Grows(states, i) && states[i + 1].order != [])
    ensures b > i ==> !LastGrowth(states, b, i + 1)
  {
    hide Grows;
  }

  lemma LastWasStep(states: seq<Table>, i: nat)
    requires i + 1 < |states|
    ensures Grows(states, i) && states[i + 1].order != [] ==> (LastWasLopsided(states, i + 1) <==> GrowsLopsided(states, i))
    ensures !Grows(states, i) && states[i + 1].order != [] ==> (LastWasLopsided(states, i + 1) <==> LastWasLopsided(states, i))
    ensures states[i + 1].order == [] ==> !LastWasLopsided(states, i + 1)
  {
    hide Grows, GrowsLopsided, LastGrowth;
    var n := i + 1;
    forall b: nat
      ensures b < i ==> (LastGrowth(states, b, n) <==> LastGrowth(states, b, i) && !Grows(states, i) && states[n].order != [])
      ensures b == i ==> (LastGrowth(states, b, n) <==> Grows(states, i) && states[n].order != [])
      ensures b > i ==> !LastGrowth(states, b, n)
      ensures LastGrowth(states, b, i) ==> b < i
    {
      LastGrowthStep(states, b, i);
      LastGrowthBefore(states, b, i);
    }
  }

  lemma LastGrowthBefore(states: seq<Table>, b: nat, i: nat)
    requires i < |states|
    ensures LastGrowth(states, b, i) ==> b < i
  {
  }

  lemma PairStep(states: seq<Table>, a: nat, b: nat, i: nat)
    requires i + 1 < |states|
    ensures b < i ==> (IneffectivePair(states, a, b, i + 1) <==> IneffectivePair(states, a, b, i) && states[i + 1].order != [])
    ensures b == i ==> (IneffectivePair(states, a, b, i + 1) <==>
                          LastGrowth(states, a, i) && Grows(states, i) && GrowsLopsided(states, a) && GrowsLopsided(states, i) && states[i + 1].order != [])
    ensures b > i ==> !IneffectivePair(states, a, b, i + 1)
    ensures b >= i ==> !IneffectivePair(states, a, b, i)
  {
    hide Grows, GrowsLopsided;
  }

  lemma HasPairStep(states: seq<Table>, i: nat)
    requires i + 1 < |states|
    ensures states[i + 1].order == [] ==> !HasPair(states, i + 1)
    ensures states[i + 1].order != [] ==>
              (HasPair(states, i + 1) <==> HasPair(states, i) || (Grows(states, i) && GrowsLopsided(states, i) && LastWasLopsided(states, i)))
  {
    hide Grows, GrowsLopsided, LastGrowth, IneffectivePair;
    var n := i + 1;
    forall a: nat, b: nat
      ensures b < i ==> (IneffectivePair(states, a, b, n) <==> IneffectivePair(states, a, b, i) && states[n].order != [])
      ensures b == i ==> (IneffectivePair(states, a, b, n) <==>
                            LastGrowth(states, a, i) && Grows(states, i) && GrowsLopsided(states, a) && GrowsLopsided(states, i) && states[n].order != [])
      ensures b > i ==> !IneffectivePair(states, a, b, n)
      ensures b >= i ==> !IneffectivePair(states, a, b, i)
    {
      PairStep(states, a, b, i);
    }
    if states[n].order != [] && Grows(states, i) && GrowsLopsided(states, i) && LastWasLopsided(states, i) {
      var a: nat :| LastGrowth(states, a, i) && GrowsLopsided(states, a);
      assert IneffectivePair(states, a, i, n);
    }
    if states[n].order != [] && HasPair(states, i) {
      var a: nat, b: nat :| IneffectivePair(states, a, b, i);
      assert IneffectivePair(states, a, b, n);
    }
  }

  ghost predicate Counted(states: seq<Table>, i: nat)
    requires i < |states|
  {
    && (states[i].ineff >= 1 <==> LastWasLopsided(states, i))
    && (states[i].noexpand <==> HasPair(states, i))
    && (states[i].noexpand <==> states[i].ineff > 1)
  }

  /** Growth is off in a state of a run if and only if two successive expansions of the table, since it
      was last made, each left more than half of its items beyond the ideal length. */
  lemma {:induction false} NoexpandExactly(states: seq<Table>, ops: seq<Op>, hash: HashFunction, i: nat)
    requires IsRun(states, ops, hash) && i <= |ops|
    ensures Counted(states, i)
    ensures states[i].noexpand <==> HasPair(states, i)
  {
    hide WF, Legal, Apply, Fills, LastWasLopsided, HasPair, GrowsLopsided, Lopsided, Grows;
    if i == 0 {
      NoneYet(states);
    } else {
      var n := i - 1;
      NoexpandExactly(states, ops, hash, n);
      RunStep(states, ops, hash, n);
      StepFigures(states[n], ops[n], hash);
      GrowsExactly(states, ops, hash, n);
      LastWasStep(states, n);
      HasPairStep(states, n);
      if states[i].order == [] { EmptyIsMade(states, ops, hash, i); }
      LopsidedIs(states, n);
    }
  }

  lemma LopsidedIs(states: seq<Table>, b: nat)
    requires b + 1 < |states| && |states[b + 1].chains| > 0
    ensures GrowsLopsided(states, b) <==> Lopsided(states[b + 1])
  {
  }

  lemma NoneYet(states: seq<Table>)
    requires |states| > 0 && states[0] == Made(map[])
    ensures Counted(states, 0)
  {
  }

  /** The performance claim with no mention of noexpand: in a run in which no two successive expansions
      both left the table lopsided, every chain is bounded in every state. */
  lemma EvenRunsAreBounded(states: seq<Table>, ops: seq<Op>, hash: HashFunction, i: nat)
    requires IsRun(states, ops, hash) && i <= |ops| && !HasPair(states, i)
    ensures var t := states[i];
            && |t.chains| == |t.mult|
            && (forall j | 0 <= j < |t.chains| ::
                  if t.mult[j] == 0 then |t.chains[j]| <= 10 else |t.chains[j]| <= 10 * (t.mult[j] + 1) - 1)
            && Sum(t.mult) <= |t.chains| && |t.order| < 20 * |t.chains|
  {
    hide IsRun, HasPair, Sum;
    BoundedChains(states, ops, hash, i);
    NoexpandExactly(states, ops, hash, i);
  }

  // ---- The figures between expansions ----

  ghost predicate NoGrowth(states: seq<Table>, i: nat)
    requires i < |states|
  {
    forall b: nat :: !LastGrowth(states, b, i)
  }

  /** In every state of a run the figures are those of the last expansion of the table, or, where there
      has been none since it was made, zero, with 32 buckets. */
  lemma {:induction false} FiguresExactly(states: seq<Table>, ops: seq<Op>, hash: HashFunction, i: nat)
    requires IsRun(states, ops, hash) && i <= |ops|
    ensures forall b: nat | LastGrowth(states, b, i) ::
              b + 1 < |states| && FreshFigures(states[b + 1]) && SameFigures(states[b + 1], states[i])
    ensures NoGrowth(states, i) ==> SameFigures(Made(map[]), states[i]) && ZeroFigures(states[i])
  {
    hide WF, Legal, Apply, Fills, Grows, LastGrowth, SameFigures, FreshFigures;
    if i == 0 {
      SameAsMade(states[0]);
      forall b: nat ensures !LastGrowth(states, b, 0) { LastGrowthBefore(states, b, 0); }
    } else {
      var n := i - 1;
      FiguresExactly(states, ops, hash, n);
      RunStep(states, ops, hash, n);
      StepFigures(states[n], ops[n], hash);
      GrowsExactly(states, ops, hash, n);
      if states[i].order == [] {
        EmptyIsMade(states, ops, hash, i);
        SameAsMade(states[i]);
        forall b: nat ensures !LastGrowth(states, b, i) { LastGrowthStep(states, b, n); LastGrowthBefore(states, b, i); }
      } else if Grows(states, n) {
        SameAsItself(states[i]);
        forall b: nat ensures LastGrowth(states, b, i) <==> b == n { LastGrowthStep(states, b, n); }
        assert LastGrowth(states, n, i);
      } else {
        forall b: nat ensures LastGrowth(states, b, i) <==> LastGrowth(states, b, n) { LastGrowthStep(states, b, n); LastGrowthBefore(states, b, n); }
        forall b: nat | LastGrowth(states, b, n) ensures b + 1 < |states| && SameFigures(states[b + 1], states[i]) {
          FiguresPass(states[b + 1], states[n], states[i]);
        }
        if NoGrowth(states, n) { FiguresPass(Made(map[]), states[n], states[i]); }
      }
    }
    if NoGrowth(states, i) { ZeroAsMade(states[i]); }
  }

  lemma FiguresPass(a: Table, b: Table, c: Table)
    requires SameFigures(a, b) && SameFigures(b, c)
    ensures SameFigures(a, c)
  {
  }

  lemma SameAsItself(t: Table)
    ensures SameFigures(t, t)
  {
  }

  lemma SameAsMade(t: Table)
    requires t == Made(t.key)
    ensures SameFigures(Made(map[]), t)
  {
  }
}
