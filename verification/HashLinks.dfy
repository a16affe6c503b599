/** The link writes of uthash: pushing a handle on the front of a bucket chain, appending an
    element to the app order, and unlinking from either. */
module HashLinks {
  import opened Pointers
  import opened HashSpec

  /** Both directions of a NULL-terminated doubly linked list with the elements s. */
  ghost predicate TwoWay(next: Field, prev: Field, s: seq<Ptr>) {
    Linked(next, s, NULL) && BackLinked(prev, s, NULL)
  }

  lemma LinkedKeeps(next: Field, s: seq<Ptr>, end: Ptr, x: Ptr, v: Ptr)
    requires Linked(next, s, end) && x !in s
    ensures Linked(next[x := v], s, end)
  {
    forall i | 0 <= i < |s| ensures next[x := v][s[i]] == if i + 1 < |s| then s[i + 1] else end {
      assert s[i] in s && next[s[i]] == if i + 1 < |s| then s[i + 1] else end;
    }
  }

  lemma BackLinkedKeeps(prev: Field, s: seq<Ptr>, first: Ptr, x: Ptr, v: Ptr)
    requires BackLinked(prev, s, first) && x !in s
    ensures BackLinked(prev[x := v], s, first)
  {
    forall i | 0 <= i < |s| ensures prev[x := v][s[i]] == if i > 0 then s[i - 1] else first {
      assert s[i] in s && prev[s[i]] == if i > 0 then s[i - 1] else first;
    }
  }

  // ---- Push front ----

  /** hh_prev after pushing x before the chain that starts at `first`. */
  function PushedPrev(prev: Field, x: Ptr, first: Ptr): Field {
    if first != NULL then prev[x := NULL][first := x] else prev[x := NULL]
  }

  lemma PushLinksNext(next: Field, s: seq<Ptr>, x: Ptr)
    requires Linked(next, s, NULL) && x !in s
    ensures Linked(next[x := Head(s)], [x] + s, NULL)
  {
    var next', s' := next[x := Head(s)], [x] + s;
    LinkedKeeps(next, s, NULL, x, Head(s));
    forall i | 0 <= i < |s'| ensures s'[i] in next' && next'[s'[i]] == if i + 1 < |s'| then s'[i + 1] else NULL {
      if i > 0 { assert s'[i] == s[i - 1] && next'[s[i - 1]] == if i < |s| then s[i] else NULL; }
    }
  }

  lemma PushLinksPrev(prev: Field, s: seq<Ptr>, x: Ptr)
    requires BackLinked(prev, s, NULL) && Nodes(s) && x !in s
    ensures BackLinked(PushedPrev(prev, x, Head(s)), [x] + s, NULL)
  {
    var prev', s' := PushedPrev(prev, x, Head(s)), [x] + s;
    NodesDistinct(s);
    forall i | 0 <= i < |s'| ensures s'[i] in prev' && prev'[s'[i]] == if i > 0 then s'[i - 1] else NULL {
      if i > 0 {
        assert s'[i] == s[i - 1] && s[i - 1] in s;
        assert prev[s[i - 1]] == if i > 1 then s[i - 2] else NULL;
        assert i > 1 ==> s[i - 1] != s[0];
      }
    }
  }

  lemma PushLinks(next: Field, prev: Field, s: seq<Ptr>, x: Ptr)
    requires TwoWay(next, prev, s) && Nodes(s) && x !in s
    ensures TwoWay(next[x := Head(s)], PushedPrev(prev, x, Head(s)), [x] + s)
  {
    hide Linked, BackLinked, Nodes, PushedPrev;
    PushLinksNext(next, s, x);
    PushLinksPrev(prev, s, x);
  }

  /** A push onto s leaves a chain d apart from it as it was. */
  lemma PushKeeps(next: Field, prev: Field, s: seq<Ptr>, x: Ptr, d: seq<Ptr>)
    requires TwoWay(next, prev, d) && x !in d && Head(s) !in d
    ensures TwoWay(next[x := Head(s)], PushedPrev(prev, x, Head(s)), d)
  {
    hide Linked, BackLinked;
    LinkedKeeps(next, d, NULL, x, Head(s));
    BackLinkedKeeps(prev, d, NULL, x, NULL);
    if Head(s) != NULL { BackLinkedKeeps(prev[x := NULL], d, NULL, Head(s), x); }
  }

  // ---- Append ----

  lemma LinkedAt(next: Field, s: seq<Ptr>, end: Ptr, i: nat)
    requires Linked(next, s, end) && i < |s|
    ensures s[i] in next && next[s[i]] == if i + 1 < |s| then s[i + 1] else end
  {
  }

  lemma BackLinkedAt(prev: Field, s: seq<Ptr>, first: Ptr, i: nat)
    requires BackLinked(prev, s, first) && i < |s|
    ensures s[i] in prev && prev[s[i]] == if i > 0 then s[i - 1] else first
  {
  }

  lemma AppendNext(next: Field, s: seq<Ptr>, x: Ptr)
    requires Linked(next, s, NULL) && Nodes(s) && x !in s && s != []
    ensures Linked(next[x := NULL][Last(s) := x], s + [x], NULL)
  {
    hide Nodes;
    var next', s' := next[x := NULL][Last(s) := x], s + [x];
    NodesDistinct(s);
    forall i | 0 <= i < |s'| ensures s'[i] in next' && next'[s'[i]] == if i + 1 < |s'| then s'[i + 1] else NULL {
      if i < |s| { LinkedAt(next, s, NULL, i); }
    }
  }

  lemma AppendPrev(prev: Field, s: seq<Ptr>, x: Ptr)
    requires BackLinked(prev, s, NULL) && x !in s
    ensures BackLinked(prev[x := Last(s)], s + [x], NULL)
  {
    var prev', s' := prev[x := Last(s)], s + [x];
    forall i | 0 <= i < |s'| ensures s'[i] in prev' && prev'[s'[i]] == if i > 0 then s'[i - 1] else NULL {
      if i < |s| { BackLinkedAt(prev, s, NULL, i); }
    }
  }

  lemma AppendLinks(next: Field, prev: Field, s: seq<Ptr>, x: Ptr)
    requires TwoWay(next, prev, s) && Nodes(s) && x !in s && s != []
    ensures TwoWay(next[x := NULL][Last(s) := x], prev[x := Last(s)], s + [x])
  {
    hide Linked, BackLinked, Nodes;
    AppendNext(next, s, x);
    AppendPrev(prev, s, x);
  }

  lemma SingleLinks(next: Field, prev: Field, x: Ptr)
    requires x in next && next[x] == NULL && x in prev && prev[x] == NULL
    ensures TwoWay(next, prev, [x])
  {
  }

  // ---- Unlink ----

  function UnlinkedNext(next: Field, prev: Field, x: Ptr): Field
    requires x in next && x in prev
  {
    if prev[x] != NULL then next[prev[x] := next[x]] else next
  }

  function UnlinkedPrev(next: Field, prev: Field, x: Ptr): Field
    requires x in next && x in prev
  {
    if next[x] != NULL then prev[next[x] := prev[x]] else prev
  }

  lemma {:induction false} RemoveMiddle(a: seq<Ptr>, x: Ptr, b: seq<Ptr>)
    requires x !in a && x !in b
    ensures Remove(a + [x] + b, x) == a + b
  {
    var s := a + [x] + b;
    if a == [] {
      assert s[1..] == b && multiset(b)[x] == 0;
      RemoveAbsent(b, x);
    } else {
      assert s[1..] == a[1..] + [x] + b;
      RemoveMiddle(a[1..], x, b);
    }
  }

  lemma RemoveAt(s: seq<Ptr>, i: nat)
    requires i < |s| && Nodes(s)
    ensures Remove(s, s[i]) == s[..i] + s[i + 1..]
  {
    hide Remove, Nodes;
    NodesDistinct(s);
    assert s == s[..i] + [s[i]] + s[i + 1..];
    RemoveMiddle(s[..i], s[i], s[i + 1..]);
  }

  lemma UnlinkNextAt(next: Field, prev: Field, s: seq<Ptr>, i: nat, j: nat)
    requires TwoWay(next, prev, s) && Nodes(s) && i < |s| && j < |s| - 1
    ensures s[i] in next && s[i] in prev
    ensures var next', s' := UnlinkedNext(next, prev, s[i]), s[..i] + s[i + 1..];
            s'[j] in next' && next'[s'[j]] == if j + 1 < |s'| then s'[j + 1] else NULL
  {
    hide Nodes, Linked, BackLinked;
    NodesDistinct(s);
    LinkedAt(next, s, NULL, i);
    BackLinkedAt(prev, s, NULL, i);
    LinkedAt(next, s, NULL, if j < i then j else j + 1);
  }

  lemma UnlinkNext(next: Field, prev: Field, s: seq<Ptr>, i: nat)
    requires TwoWay(next, prev, s) && Nodes(s) && i < |s|
    ensures s[i] in next && s[i] in prev && Linked(UnlinkedNext(next, prev, s[i]), s[..i] + s[i + 1..], NULL)
  {
    hide Nodes, BackLinked, UnlinkedNext, TwoWay;
    Neighbours(next, prev, s, i);
    var next', s' := UnlinkedNext(next, prev, s[i]), s[..i] + s[i + 1..];
    forall j {:trigger s'[j]} | 0 <= j < |s'|
      ensures s'[j] in next' && next'[s'[j]] == if j + 1 < |s'| then s'[j + 1] else NULL
    {
      UnlinkNextAt(next, prev, s, i, j);
    }
  }

  lemma UnlinkPrevAt(next: Field, prev: Field, s: seq<Ptr>, i: nat, j: nat)
    requires TwoWay(next, prev, s) && Nodes(s) && i < |s| && j < |s| - 1
    ensures s[i] in next && s[i] in prev
    ensures var prev', s' := UnlinkedPrev(next, prev, s[i]), s[..i] + s[i + 1..];
            s'[j] in prev' && prev'[s'[j]] == if j > 0 then s'[j - 1] else NULL
  {
    hide Nodes, Linked, BackLinked;
    NodesDistinct(s);
    LinkedAt(next, s, NULL, i);
    BackLinkedAt(prev, s, NULL, i);
    BackLinkedAt(prev, s, NULL, if j < i then j else j + 1);
  }

  lemma UnlinkPrev(next: Field, prev: Field, s: seq<Ptr>, i: nat)
    requires TwoWay(next, prev, s) && Nodes(s) && i < |s|
    ensures s[i] in next && s[i] in prev && BackLinked(UnlinkedPrev(next, prev, s[i]), s[..i] + s[i + 1..], NULL)
  {
    hide Nodes, Linked, UnlinkedPrev, TwoWay;
    Neighbours(next, prev, s, i);
    var prev', s' := UnlinkedPrev(next, prev, s[i]), s[..i] + s[i + 1..];
    forall j {:trigger s'[j]} | 0 <= j < |s'|
      ensures s'[j] in prev' && prev'[s'[j]] == if j > 0 then s'[j - 1] else NULL
    {
      UnlinkPrevAt(next, prev, s, i, j);
    }
  }

  lemma Neighbours(next: Field, prev: Field, s: seq<Ptr>, i: nat)
    requires TwoWay(next, prev, s) && Nodes(s) && i < |s|
    ensures s[i] in next && s[i] in prev
    ensures prev[s[i]] == if i > 0 then s[i - 1] else NULL
    ensures next[s[i]] == if i + 1 < |s| then s[i + 1] else NULL
  {
  }

  /** Unlinking x by its own neighbours, the new head and the new tail. */
  lemma UnlinkLinks(next: Field, prev: Field, s: seq<Ptr>, x: Ptr)
    requires TwoWay(next, prev, s) && Nodes(s) && x in s
    ensures x in next && x in prev
    ensures TwoWay(UnlinkedNext(next, prev, x), UnlinkedPrev(next, prev, x), Remove(s, x))
    ensures Head(Remove(s, x)) == if prev[x] == NULL then next[x] else Head(s)
    ensures Head(Remove(s, x)) == if x == Head(s) then next[x] else Head(s)
    ensures Last(Remove(s, x)) == if x == Last(s) then prev[x] else Last(s)
    ensures |Remove(s, x)| == |s| - 1
    ensures prev[x] != x && next[x] != x
    ensures next[x] == NULL || next[x] in s
    ensures prev[x] == NULL || prev[x] in s
    ensures prev[x] == NULL && next[x] == NULL <==> s == [x]
  {
    hide Linked, BackLinked, UnlinkedNext, UnlinkedPrev, Nodes, Remove;
    var i :| 0 <= i < |s| && s[i] == x;
    Neighbours(next, prev, s, i);
    NodesDistinct(s);
    RemoveAt(s, i);
    UnlinkNext(next, prev, s, i);
    UnlinkPrev(next, prev, s, i);
  }

  /** Unlinking x from s leaves a chain d apart from s as it was. */
  lemma UnlinkKeeps(next: Field, prev: Field, s: seq<Ptr>, x: Ptr, d: seq<Ptr>)
    requires TwoWay(next, prev, s) && Nodes(s) && x in s && TwoWay(next, prev, d)
    requires forall y | y in s :: y !in d
    ensures x in next && x in prev && TwoWay(UnlinkedNext(next, prev, x), UnlinkedPrev(next, prev, x), d)
  {
    hide Linked, BackLinked, Nodes, Remove;
    UnlinkLinks(next, prev, s, x);
    if prev[x] != NULL { LinkedKeeps(next, d, NULL, prev[x], next[x]); }
    if next[x] != NULL { BackLinkedKeeps(prev, d, NULL, next[x], prev[x]); }
  }
}
