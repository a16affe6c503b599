/** The order that the bottom-up list mergesorts of uthash.h and utlist.h produce, as
    functions on sequences, and the proof that it is the stable sorted order. */
module SortSpec {

  type Compare<!T> = (T, T) -> int

  /** What the sort macros ask of the comparison to promise a sorted result. */
  ghost predicate TotalPreorder<T(!new)>(cmp: Compare<T>) {
    && (forall a, b :: cmp(a, b) <= 0 || cmp(b, a) <= 0)
    && (forall a, b, c :: cmp(a, b) <= 0 && cmp(b, c) <= 0 ==> cmp(a, c) <= 0)
  }

  /** One merge: the left run wins ties. */
  function Merge<T>(a: seq<T>, b: seq<T>, cmp: Compare<T>): (r: seq<T>)
    ensures |r| == |a| + |b|
  {
    if a == [] then b
    else if b == [] then a
    else if cmp(a[0], b[0]) <= 0 then [a[0]] + Merge(a[1..], b, cmp)
    else [b[0]] + Merge(a, b[1..], cmp)
  }

  function Min(a: nat, b: nat): nat { if a <= b then a else b }

  /** One pass of the outer loop: adjacent runs of k elements are merged pairwise. */
  function Pass<T>(s: seq<T>, k: nat, cmp: Compare<T>): (r: seq<T>)
    requires k >= 1
    ensures |r| == |s|
  {
    if s == [] then []
    else
      var m, n := Min(k, |s|), Min(2 * k, |s|);
      Merge(s[..m], s[m..n], cmp) + Pass(s[n..], k, cmp)
  }

  /** All passes from run length k on: a pass with at most one merge is the last. */
  function BottomUp<T>(s: seq<T>, k: nat, cmp: Compare<T>): (r: seq<T>)
    requires k >= 1
    ensures |r| == |s|
    decreases if |s| > 2 * k then |s| - 2 * k else 0
  {
    var p := Pass(s, k, cmp);
    if |s| <= 2 * k then p else BottomUp(p, 2 * k, cmp)
  }

  // ---- The reference: stable insertion sort ----

  function Insert<T>(x: T, s: seq<T>, cmp: Compare<T>): (r: seq<T>)
  {
    if s == [] || cmp(x, s[0]) <= 0 then [x] + s
    else [s[0]] + Insert(x, s[1..], cmp)
  }

  function InsertionSort<T>(s: seq<T>, cmp: Compare<T>): (r: seq<T>)
  {
    if s == [] then [] else Insert(s[0], InsertionSort(s[1..], cmp), cmp)
  }

  ghost predicate Sorted<T>(s: seq<T>, cmp: Compare<T>) {
    forall i, j | 0 <= i < j < |s| :: cmp(s[i], s[j]) <= 0
  }

  function Equivalent<T>(x: T, s: seq<T>, cmp: Compare<T>): (r: seq<T>)
  // the subsequence of s that compares equal to x
  {
    if s == [] then []
    else if cmp(x, s[0]) <= 0 && cmp(s[0], x) <= 0 then [s[0]] + Equivalent(x, s[1..], cmp)
    else Equivalent(x, s[1..], cmp)
  }

  lemma {:induction false} InsertIsPermutation<T>(x: T, s: seq<T>, cmp: Compare<T>)
    ensures multiset(Insert(x, s, cmp)) == multiset(s) + multiset{x}
  {
    if !(s == [] || cmp(x, s[0]) <= 0) {
      InsertIsPermutation(x, s[1..], cmp);
      assert s == [s[0]] + s[1..];
    }
  }

  /** Every element of s is at least x. */
  ghost predicate AllFrom<T>(x: T, s: seq<T>, cmp: Compare<T>) {
    forall j | 0 <= j < |s| :: cmp(x, s[j]) <= 0
  }

  lemma SortedCons<T>(x: T, s: seq<T>, cmp: Compare<T>)
    requires Sorted(s, cmp) && AllFrom(x, s, cmp)
    ensures Sorted([x] + s, cmp)
  {
  }

  lemma {:induction false} InsertKeepsBound<T>(y: T, x: T, s: seq<T>, cmp: Compare<T>)
    requires AllFrom(y, s, cmp) && cmp(y, x) <= 0
    ensures AllFrom(y, Insert(x, s, cmp), cmp)
  {
    if !(s == [] || cmp(x, s[0]) <= 0) { InsertKeepsBound(y, x, s[1..], cmp); }
  }

  lemma {:induction false} InsertIsSorted<T(!new)>(x: T, s: seq<T>, cmp: Compare<T>)
    requires TotalPreorder(cmp) && Sorted(s, cmp)
    ensures Sorted(Insert(x, s, cmp), cmp)
  {
    if s == [] {
    } else if cmp(x, s[0]) <= 0 {
      SortedCons(x, s, cmp);
    } else {
      InsertIsSorted(x, s[1..], cmp);
      InsertKeepsBound(s[0], x, s[1..], cmp);
      SortedCons(s[0], Insert(x, s[1..], cmp), cmp);
    }
  }

  lemma {:induction false} InsertIsStable<T(!new)>(x: T, y: T, s: seq<T>, cmp: Compare<T>)
    requires TotalPreorder(cmp)
    ensures Equivalent(y, Insert(x, s, cmp), cmp) == Equivalent(y, [x] + s, cmp)
  {
    if s == [] || cmp(x, s[0]) <= 0 {
    } else {
      InsertIsStable(x, y, s[1..], cmp);
      assert ([x] + s)[1..] == s && ([x] + s[1..])[1..] == s[1..];
      var r := Insert(x, s, cmp);
      assert r[1..] == Insert(x, s[1..], cmp);
    }
  }

  lemma EquivalentOfTail<T>(y: T, s: seq<T>, t: seq<T>, cmp: Compare<T>)
    requires s != [] && Equivalent(y, t, cmp) == Equivalent(y, s[1..], cmp)
    ensures Equivalent(y, [s[0]] + t, cmp) == Equivalent(y, s, cmp)
  {
    assert ([s[0]] + t)[1..] == t;
  }

  lemma SortedEmpty<T>(s: seq<T>, cmp: Compare<T>)
    requires s == []
    ensures Sorted(s, cmp)
  {
  }

  /** The reference is right: a sorted, stable permutation. */
  lemma {:induction false} InsertionSortIsStableSort<T(!new)>(s: seq<T>, cmp: Compare<T>)
    ensures multiset(InsertionSort(s, cmp)) == multiset(s)
    ensures TotalPreorder(cmp) ==> Sorted(InsertionSort(s, cmp), cmp)
    ensures TotalPreorder(cmp) ==> forall y :: Equivalent(y, InsertionSort(s, cmp), cmp) == Equivalent(y, s, cmp)
  {
    hide TotalPreorder, Sorted, Insert;
    if s != [] {
      var t := InsertionSort(s[1..], cmp);
      InsertionSortIsStableSort(s[1..], cmp);
      InsertIsPermutation(s[0], t, cmp);
      assert s == [s[0]] + s[1..];
      if TotalPreorder(cmp) {
        InsertIsSorted(s[0], t, cmp);
        forall y ensures Equivalent(y, Insert(s[0], t, cmp), cmp) == Equivalent(y, s, cmp) {
          InsertIsStable(s[0], y, t, cmp);
          EquivalentOfTail(y, s, t, cmp);
        }
      }
    } else {
      SortedEmpty(s, cmp);
    }
  }

  // ---- The mergesort computes the reference ----

  lemma {:induction false} MergeInsert<T(!new)>(x: T, a: seq<T>, b: seq<T>, cmp: Compare<T>)
    requires TotalPreorder(cmp)
    ensures Merge(Insert(x, a, cmp), b, cmp) == Insert(x, Merge(a, b, cmp), cmp)
    decreases |a| + |b|
  {
    if b == [] {
      assert Insert(x, a, cmp) != [];
    } else if a == [] {
      if cmp(x, b[0]) <= 0 {
        assert [x][1..] == [];
      } else {
        MergeInsert(x, a, b[1..], cmp);
        assert Merge(a, b[1..], cmp) == b[1..];
      }
    } else if cmp(a[0], b[0]) <= 0 {
      if cmp(x, a[0]) <= 0 {
        assert ([x] + a)[1..] == a;
      } else {
        MergeInsert(x, a[1..], b, cmp);
        assert ([a[0]] + Insert(x, a[1..], cmp))[1..] == Insert(x, a[1..], cmp);
        assert ([a[0]] + Merge(a[1..], b, cmp))[1..] == Merge(a[1..], b, cmp);
      }
    } else {
      MergeInsert(x, a, b[1..], cmp);
      var m := Merge(a, b[1..], cmp);
      assert ([b[0]] + m)[1..] == m;
      if cmp(x, b[0]) <= 0 {
        // x goes before b[0], which goes before a[0]
        assert cmp(b[0], a[0]) <= 0;
        assert cmp(x, a[0]) <= 0;
        assert ([x] + a)[1..] == a;
      } else {
        var i := Insert(x, a, cmp);
        assert i[0] == x || i[0] == a[0];
      }
    }
  }

  lemma MergeNil<T>(b: seq<T>, cmp: Compare<T>)
    ensures Merge([], b, cmp) == b
  {
  }

  lemma {:induction false} MergeOfSortedRuns<T(!new)>(a: seq<T>, b: seq<T>, cmp: Compare<T>)
    requires TotalPreorder(cmp)
    ensures Merge(InsertionSort(a, cmp), InsertionSort(b, cmp), cmp) == InsertionSort(a + b, cmp)
  {
    hide TotalPreorder, Insert, Merge;
    if a == [] {
      assert a + b == b;
      MergeNil(InsertionSort(b, cmp), cmp);
    } else {
      MergeOfSortedRuns(a[1..], b, cmp);
      MergeInsert(a[0], InsertionSort(a[1..], cmp), InsertionSort(b, cmp), cmp);
      assert (a + b)[1..] == a[1..] + b;
    }
  }

  /** s cut into runs of k elements (the last one shorter), each run sorted on its own. */
  function SortedRuns<T>(s: seq<T>, k: nat, cmp: Compare<T>): (r: seq<T>)
    requires k >= 1
  {
    if s == [] then []
    else InsertionSort(s[..Min(k, |s|)], cmp) + SortedRuns(s[Min(k, |s|)..], k, cmp)
  }

  lemma {:induction false} InsertionSortLength<T>(s: seq<T>, cmp: Compare<T>)
    ensures |InsertionSort(s, cmp)| == |s|
  {
    if s != [] {
      InsertionSortLength(s[1..], cmp);
      InsertLength(s[0], InsertionSort(s[1..], cmp), cmp);
    }
  }

  lemma {:induction false} InsertLength<T>(x: T, s: seq<T>, cmp: Compare<T>)
    ensures |Insert(x, s, cmp)| == |s| + 1
  {
    if !(s == [] || cmp(x, s[0]) <= 0) { InsertLength(x, s[1..], cmp); }
  }

  lemma {:induction false} SortedRunsLength<T>(s: seq<T>, k: nat, cmp: Compare<T>)
    requires k >= 1
    ensures |SortedRuns(s, k, cmp)| == |s|
  {
    if s != [] {
      InsertionSortLength(s[..Min(k, |s|)], cmp);
      SortedRunsLength(s[Min(k, |s|)..], k, cmp);
    }
  }

  lemma SortedRunsCons<T>(a: seq<T>, rest: seq<T>, k: nat, cmp: Compare<T>)
    requires k >= 1 && |a| == Min(k, |a| + |rest|)
    ensures SortedRuns(a + rest, k, cmp) == InsertionSort(a, cmp) + SortedRuns(rest, k, cmp)
  {
    hide InsertionSort;
    var s := a + rest;
    if s == [] {
      InsertionSortNil(a, cmp);
    } else {
      assert s[..|a|] == a && s[|a|..] == rest;
    }
  }

  lemma SortedRunsTwo<T>(a: seq<T>, b: seq<T>, c: seq<T>, k: nat, cmp: Compare<T>)
    requires k >= 1 && |a| == Min(k, |a| + |b| + |c|) && |b| == Min(k, |b| + |c|)
    ensures SortedRuns(a + (b + c), k, cmp) == InsertionSort(a, cmp) + (InsertionSort(b, cmp) + SortedRuns(c, k, cmp))
  {
    hide InsertionSort, SortedRuns;
    SortedRunsCons(a, b + c, k, cmp);
    SortedRunsCons(b, c, k, cmp);
  }

  lemma InsertionSortNil<T>(s: seq<T>, cmp: Compare<T>)
    requires s == []
    ensures InsertionSort(s, cmp) == []
  {
  }

  lemma Cut<T>(a: seq<T>, b: seq<T>, c: seq<T>)
    ensures (a + (b + c))[..|a|] == a
    ensures (a + (b + c))[|a|..|a| + |b|] == b
    ensures (a + (b + c))[|a| + |b|..] == c
  {
  }

  lemma PassOfCut<T>(a: seq<T>, b: seq<T>, c: seq<T>, k: nat, cmp: Compare<T>)
    requires k >= 1 && a != [] && |a| <= k && |b| <= k
    requires b != [] ==> |a| == k
    requires c != [] ==> |a| == |b| == k
    ensures Pass(a + (b + c), k, cmp) == Merge(a, b, cmp) + Pass(c, k, cmp)
  {
    hide Merge;
    var s := a + (b + c);
    Cut(a, b, c);
    assert Min(k, |s|) == |a| && Min(2 * k, |s|) == |a| + |b|;
  }

  lemma SortedRunsNil<T>(s: seq<T>, k: nat, cmp: Compare<T>)
    requires k >= 1
    ensures SortedRuns(s, k, cmp) == [] <==> s == []
  {
    SortedRunsLength(s, k, cmp);
  }

  /** The first two runs p and q of k, when the rest r is known to double. */
  lemma PassDoublesFirst<T(!new)>(p: seq<T>, q: seq<T>, r: seq<T>, k: nat, cmp: Compare<T>)
    requires k >= 1 && TotalPreorder(cmp) && p != []
    requires |p| == Min(k, |p| + |q| + |r|) && |q| == Min(k, |q| + |r|)
    requires Pass(SortedRuns(r, k, cmp), k, cmp) == SortedRuns(r, 2 * k, cmp)
    ensures Pass(SortedRuns(p + (q + r), k, cmp), k, cmp) == SortedRuns(p + (q + r), 2 * k, cmp)
  {
    hide TotalPreorder, InsertionSort, Merge, Pass, SortedRuns;
    SortedRunsTwo(p, q, r, k, cmp);
    InsertionSortLength(p, cmp);
    InsertionSortLength(q, cmp);
    SortedRunsNil(r, k, cmp);
    PassOfCut(InsertionSort(p, cmp), InsertionSort(q, cmp), SortedRuns(r, k, cmp), k, cmp);
    MergeOfSortedRuns(p, q, cmp);
    assert p + (q + r) == (p + q) + r;
    SortedRunsCons(p + q, r, 2 * k, cmp);
  }

  lemma ThreeParts<T>(s: seq<T>, k: nat) returns (p: seq<T>, q: seq<T>, r: seq<T>)
    requires k >= 1 && s != []
    ensures s == p + (q + r) && p != []
    ensures |p| == Min(k, |p| + |q| + |r|) && |q| == Min(k, |q| + |r|)
  {
    var t: seq<T>;
    p, t := TwoParts(s, Min(k, |s|));
    q, r := TwoParts(t, Min(k, |t|));
  }

  lemma TwoParts<T>(s: seq<T>, m: nat) returns (a: seq<T>, b: seq<T>)
    requires m <= |s|
    ensures s == a + b && |a| == m
  {
    a, b := s[..m], s[m..];
  }

  /** A pass turns runs of k into runs of 2k. */
  lemma {:induction false} PassDoublesRuns<T(!new)>(s: seq<T>, k: nat, cmp: Compare<T>)
    requires k >= 1 && TotalPreorder(cmp)
    ensures Pass(SortedRuns(s, k, cmp), k, cmp) == SortedRuns(s, 2 * k, cmp)
    decreases |s|
  {
    if s != [] {
      hide *;
      var p, q, r := ThreeParts(s, k);
      PassDoublesRuns(r, k, cmp);
      PassDoublesFirst(p, q, r, k, cmp);
    }
  }

  lemma {:induction false} BottomUpOfRuns<T(!new)>(s: seq<T>, k: nat, cmp: Compare<T>)
    requires k >= 1 && TotalPreorder(cmp)
    ensures BottomUp(SortedRuns(s, k, cmp), k, cmp) == InsertionSort(s, cmp)
    decreases if |s| > 2 * k then |s| - 2 * k else 0
  {
    hide TotalPreorder, InsertionSort, Pass;
    PassDoublesRuns(s, k, cmp);
    SortedRunsLength(s, k, cmp);
    if |s| <= 2 * k {
      if s == [] { InsertionSortNil(s, cmp); }
      assert s != [] ==> s[..Min(2 * k, |s|)] == s && s[Min(2 * k, |s|)..] == [];
    } else {
      BottomUpOfRuns(s, 2 * k, cmp);
    }
  }

  lemma {:induction false} RunsOfOne<T>(s: seq<T>, cmp: Compare<T>)
    ensures SortedRuns(s, 1, cmp) == s
  {
    if s != [] {
      RunsOfOne(s[1..], cmp);
      var h := s[..1];
      assert h == [s[0]] && h[1..] == [];
      assert InsertionSort(h[1..], cmp) == [];
      assert InsertionSort(h, cmp) == [s[0]];
    }
  }

  /** The bottom-up passes of all four sort macros end in the stable sorted order. */
  lemma {:induction false} BottomUpIsInsertionSort<T(!new)>(s: seq<T>, cmp: Compare<T>)
    requires TotalPreorder(cmp)
    ensures BottomUp(s, 1, cmp) == InsertionSort(s, cmp)
  {
    RunsOfOne(s, cmp);
    BottomUpOfRuns(s, 1, cmp);
  }

  // ---- Without any assumption on cmp the result is still a permutation ----

  lemma {:induction false} MergeIsPermutation<T>(a: seq<T>, b: seq<T>, cmp: Compare<T>)
    ensures multiset(Merge(a, b, cmp)) == multiset(a) + multiset(b)
    decreases |a| + |b|
  {
    if a != [] && b != [] {
      assert a == [a[0]] + a[1..] && b == [b[0]] + b[1..];
      if cmp(a[0], b[0]) <= 0 {
        MergeIsPermutation(a[1..], b, cmp);
      } else {
        MergeIsPermutation(a, b[1..], cmp);
      }
    }
  }

  lemma {:induction false} PassIsPermutation<T>(s: seq<T>, k: nat, cmp: Compare<T>)
    requires k >= 1
    ensures multiset(Pass(s, k, cmp)) == multiset(s)
  {
    if s != [] {
      var m, n := Min(k, |s|), Min(2 * k, |s|);
      var a, b, c := s[..m], s[m..n], s[n..];
      MergeIsPermutation(a, b, cmp);
      PassIsPermutation(c, k, cmp);
      CutInThree(s, m, n);
      assert Pass(s, k, cmp) == Merge(a, b, cmp) + Pass(c, k, cmp);
    }
  }

  lemma CutInThree<T>(s: seq<T>, m: nat, n: nat)
    requires m <= n <= |s|
    ensures s[..m] + s[m..n] == s[..n]
    ensures multiset(s) == multiset(s[..m]) + multiset(s[m..n]) + multiset(s[n..])
  {
    assert s[..m] + s[m..n] == s[..n];
    assert s == s[..n] + s[n..];
  }

  lemma {:induction false} BottomUpIsPermutation<T>(s: seq<T>, k: nat, cmp: Compare<T>)
    requires k >= 1
    ensures multiset(BottomUp(s, k, cmp)) == multiset(s)
    decreases if |s| > 2 * k then |s| - 2 * k else 0
  {
    PassIsPermutation(s, k, cmp);
    if |s| > 2 * k { BottomUpIsPermutation(Pass(s, k, cmp), 2 * k, cmp); }
  }
}
