/** Tatham's in-place list mergesort in the four link disciplines of the repository:
    LL_SORT2, DL_SORT2 and CDL_SORT2 (utlist.h) and HASH_SRT (uthash.h). The macros share
    their text; `kind` selects the lines in which they differ. */
module ListSort {
  import opened Pointers
  import opened SortSpec

  datatype Kind = SinglyLinked | DoublyLinked | Circular | AppOrder

  /** The link shape each discipline keeps for the elements s. */
  ghost predicate Shape(kind: Kind, next: Field, prev: Field, s: seq<Ptr>) {
    && Nodes(s)
    && Linked(next, s, End(kind, s))
    && match kind
       case SinglyLinked => true
       case DoublyLinked => BackLinked(prev, s, Last(s))
       case Circular => BackLinked(prev, s, Last(s))
       case AppOrder => BackLinked(prev, s, NULL)
  }

  function End(kind: Kind, s: seq<Ptr>): Ptr { if kind.Circular? then Head(s) else NULL }

  /** The successor of x; a circular list ends where the old head comes round again. */
  function Step(kind: Kind, next: Field, oldHead: Ptr, x: Ptr): Ptr
    requires x in next
  {
    if kind.Circular? && next[x] == oldHead then NULL else next[x]
  }

  /** Stepping from s[0] visits s. With `closed`, the step after the last element gives NULL. */
  ghost predicate Walk(kind: Kind, next: Field, oldHead: Ptr, s: seq<Ptr>, closed: bool) {
    s == [] ||
    (&& s[0] in next
     && (|s| > 1 || closed ==> Step(kind, next, oldHead, s[0]) == Head(s[1..]))
     && Walk(kind, next, oldHead, s[1..], closed))
  }

  /** The output list so far: chained by next up to its last element, and by prev. */
  ghost predicate Output(kind: Kind, next: Field, prev: Field, out: seq<Ptr>) {
    && (forall i | 0 <= i < |out| :: out[i] in next)
    && (forall i {:trigger next[out[i]]} | 0 <= i < |out| - 1 :: next[out[i]] == out[i + 1])
    && (!kind.SinglyLinked? ==> BackLinked(prev, out, NULL))
  }

  /** Where the inner merge stands: `out` built, `ps` left of the left run, `qs` everything
      from q on; together they are the nodes of the list. */
  ghost predicate MergeState(kind: Kind, next: Field, prev: Field, oldHead: Ptr, all: multiset<Ptr>,
                             out: seq<Ptr>, ps: seq<Ptr>, qs: seq<Ptr>) {
    && NodeBag(all) && multiset(out) + multiset(ps) + multiset(qs) == all
    && Output(kind, next, prev, out)
    && Walk(kind, next, oldHead, ps, false)
    && Walk(kind, next, oldHead, qs, true)
    && (!kind.SinglyLinked? ==> forall x | x in all :: x in prev)
  }

  lemma Apart(all: multiset<Ptr>, out: seq<Ptr>, ps: seq<Ptr>, qs: seq<Ptr>)
    requires NodeBag(all) && multiset(out) + multiset(ps) + multiset(qs) == all
    ensures Nodes(out) && Nodes(ps) && Nodes(qs)
    ensures forall x | x in out :: x in all && x !in ps && x !in qs
    ensures forall x | x in ps :: x in all && x !in out && x !in qs
    ensures forall x | x in qs :: x in all && x !in out && x !in ps
    ensures Last(out) == NULL <==> out == []
    ensures Head(qs) == NULL <==> qs == []
  {
    assert forall x :: all[x] == multiset(out)[x] + multiset(ps)[x] + multiset(qs)[x];
    assert forall x | x in out :: multiset(out)[x] >= 1;
    assert forall x | x in ps :: multiset(ps)[x] >= 1;
    assert forall x | x in qs :: multiset(qs)[x] >= 1;
    assert out != [] ==> Last(out) in out;
    assert qs != [] ==> Head(qs) in qs;
  }

  /** A walk over s does not see a write to a node outside s. */
  lemma {:induction false} WalkKeeps(kind: Kind, next: Field, oldHead: Ptr, s: seq<Ptr>, closed: bool, x: Ptr, e: Ptr)
    requires Walk(kind, next, oldHead, s, closed) && x !in s
    ensures Walk(kind, next[x := e], oldHead, s, closed)
  {
    if s != [] { WalkKeeps(kind, next, oldHead, s[1..], closed, x, e); }
  }

  lemma ChainGrows(next: Field, out: seq<Ptr>, e: Ptr)
    requires Nodes(out) && e in next
    requires forall i | 0 <= i < |out| :: out[i] in next
    requires forall i {:trigger next[out[i]]} | 0 <= i < |out| - 1 :: next[out[i]] == out[i + 1]
    ensures var next' := if out == [] then next else next[Last(out) := e];
            && (forall i | 0 <= i < |out + [e]| :: (out + [e])[i] in next')
            && (forall i {:trigger next'[(out + [e])[i]]} | 0 <= i < |out| :: next'[(out + [e])[i]] == (out + [e])[i + 1])
  {
    NodesDistinct(out);
    if out != [] {
      var next' := next[Last(out) := e];
      forall i | 0 <= i < |out| ensures next'[(out + [e])[i]] == (out + [e])[i + 1] {
        if i < |out| - 1 { assert next[out[i]] == out[i + 1] && out[i] != out[|out| - 1]; }
      }
    }
  }

  lemma BackGrows(prev: Field, out: seq<Ptr>, e: Ptr)
    requires BackLinked(prev, out, NULL) && e !in out
    ensures BackLinked(prev[e := Last(out)], out + [e], NULL)
  {
    var prev', out' := prev[e := Last(out)], out + [e];
    forall i | 0 <= i < |out'| ensures prev'[out'[i]] == if i > 0 then out'[i - 1] else NULL {
      if i < |out| { assert prev[out[i]] == if i > 0 then out[i - 1] else NULL; }
    }
  }

  lemma OutputGrows(kind: Kind, next: Field, prev: Field, out: seq<Ptr>, e: Ptr)
    requires Output(kind, next, prev, out) && Nodes(out) && e !in out && e in next
    ensures var next' := if out == [] then next else next[Last(out) := e];
            var prev' := if kind.SinglyLinked? then prev else prev[e := Last(out)];
            Output(kind, next', prev', out + [e])
    ensures out != [] ==> Last(out) in next
  {
    hide Nodes, BackLinked;
    ChainGrows(next, out, e);
    if !kind.SinglyLinked? { BackGrows(prev, out, e); }
  }

  /** e is the front of the left run (and then ps', b remain) or of the right run. */
  ghost predicate Takes(ps: seq<Ptr>, b: seq<Ptr>, e: Ptr, ps': seq<Ptr>, b': seq<Ptr>) {
    || (ps == [e] + ps' && b' == b)
    || (b == [e] + b' && ps' == ps)
  }

  lemma WalksAfter(kind: Kind, next: Field, oldHead: Ptr, ps: seq<Ptr>, b: seq<Ptr>, beyond: seq<Ptr>,
                   e: Ptr, ps': seq<Ptr>, b': seq<Ptr>)
    requires Takes(ps, b, e, ps', b')
    requires Walk(kind, next, oldHead, ps, false) && Walk(kind, next, oldHead, b + beyond, true)
    ensures Walk(kind, next, oldHead, ps', false) && Walk(kind, next, oldHead, b' + beyond, true) && e in next
    ensures multiset(ps) + multiset(b + beyond) == multiset{e} + multiset(ps') + multiset(b' + beyond)
  {
    if ps == [e] + ps' && b' == b {
      assert ps[1..] == ps';
    } else {
      assert b + beyond == [e] + (b' + beyond);
      assert (b + beyond)[1..] == b' + beyond;
    }
  }

  /** Taking e keeps the nodes apart and all in the list. */
  lemma BagAfter(all: multiset<Ptr>, out: seq<Ptr>, ps: seq<Ptr>, qs: seq<Ptr>, e: Ptr, ps': seq<Ptr>, qs': seq<Ptr>)
    requires NodeBag(all) && multiset(out) + multiset(ps) + multiset(qs) == all
    requires multiset(ps) + multiset(qs) == multiset{e} + multiset(ps') + multiset(qs')
    ensures multiset(out + [e]) + multiset(ps') + multiset(qs') == all
    ensures Nodes(out) && e !in out && e in all && (out != [] ==> Last(out) in all && Last(out) !in ps' && Last(out) !in qs')
  {
    assert multiset(out + [e]) == multiset(out) + multiset{e};
    assert all == multiset(out) + (multiset(ps) + multiset(qs));
    assert multiset(out + [e]) + multiset(ps') + multiset(qs') == multiset(out) + (multiset{e} + multiset(ps') + multiset(qs'));
    Apart(all, out + [e], ps', qs');
    Apart(all, out, ps, qs);
    assert e in all;
    assert e in out ==> multiset(out)[e] >= 1;
    assert all[e] >= multiset(out)[e] + 1;
    assert out != [] ==> Last(out) in out && Last(out) in out + [e];
  }

  /** The link writes for e keep the state of the merge. */
  lemma StateAfter(kind: Kind, next: Field, prev: Field, oldHead: Ptr, all: multiset<Ptr>, out: seq<Ptr>,
                   ps: seq<Ptr>, b: seq<Ptr>, beyond: seq<Ptr>, e: Ptr, ps': seq<Ptr>, b': seq<Ptr>)
    requires MergeState(kind, next, prev, oldHead, all, out, ps, b + beyond) && Takes(ps, b, e, ps', b')
    ensures var next' := if out == [] then next else next[Last(out) := e];
            var prev' := if kind.SinglyLinked? then prev else prev[e := Last(out)];
            && MergeState(kind, next', prev', oldHead, all, out + [e], ps', b' + beyond)
            && Frame(next, next', all) && Frame(prev, prev', all)
  {
    hide Walk, Nodes, NodeBag, Output, Takes, Frame;
    WalksAfter(kind, next, oldHead, ps, b, beyond, e, ps', b');
    BagAfter(all, out, ps, b + beyond, e, ps', b' + beyond);
    OutputGrows(kind, next, prev, out, e);
    FrameRefl(next, all);
    FrameRefl(prev, all);
    if out != [] {
      WalkKeeps(kind, next, oldHead, ps', false, Last(out), e);
      WalkKeeps(kind, next, oldHead, b' + beyond, true, Last(out), e);
      FrameWrite(next, all, Last(out), e);
    }
    if !kind.SinglyLinked? { FrameWrite(prev, all, e, Last(out)); }
  }

  lemma FrameWrite(a: Field, all: multiset<Ptr>, x: Ptr, v: Ptr)
    requires x in all && x in a
    ensures Frame(a, a[x := v], all)
  {
  }

  /** The four-way choice of the inner loop. */
  method TakeNext(kind: Kind, next: Field, oldHead: Ptr, p0: Ptr, psize0: nat, q0: Ptr, qsize0: nat, cmp: Compare<Ptr>,
                  ghost ps: seq<Ptr>, ghost b: seq<Ptr>, ghost beyond: seq<Ptr>)
    returns (e: Ptr, p: Ptr, psize: nat, q: Ptr, qsize: nat, ghost ps': seq<Ptr>, ghost b': seq<Ptr>)
    requires Walk(kind, next, oldHead, ps, false) && Walk(kind, next, oldHead, b + beyond, true)
    requires NULL !in b && NULL !in beyond
    requires |ps| == psize0 && (ps != [] ==> p0 == ps[0]) && q0 == Head(b + beyond)
    requires |b| <= qsize0 && (|b| < qsize0 ==> beyond == [])
    requires psize0 > 0 || (qsize0 > 0 && q0 != NULL)
    ensures Takes(ps, b, e, ps', b') && Merge(ps, b, cmp) == [e] + Merge(ps', b', cmp)
    ensures |ps'| == psize && (ps' != [] ==> p == ps'[0]) && q == Head(b' + beyond)
    ensures |b'| <= qsize && (|b'| < qsize ==> beyond == [])
    ensures psize + qsize == psize0 + qsize0 - 1
  {
    p, psize, q, qsize, ps', b' := p0, psize0, q0, qsize0, ps, b;
    if psize == 0 {
      e := q;
      q := Step(kind, next, oldHead, q);
      qsize := qsize - 1;
      b' := b[1..];
      assert b == [e] + b' && (b + beyond)[1..] == b' + beyond;
    } else if qsize == 0 || q == NULL {
      e := p;
      p := Step(kind, next, oldHead, p);
      psize := psize - 1;
      ps' := ps[1..];
      assert ps == [e] + ps' && b == [];
    } else if cmp(p, q) <= 0 {
      e := p;
      p := Step(kind, next, oldHead, p);
      psize := psize - 1;
      ps' := ps[1..];
      assert ps == [e] + ps';
    } else {
      e := q;
      q := Step(kind, next, oldHead, q);
      qsize := qsize - 1;
      b' := b[1..];
      assert b == [e] + b' && (b + beyond)[1..] == b' + beyond;
    }
  }

  lemma StateGives(kind: Kind, next: Field, prev: Field, oldHead: Ptr, all: multiset<Ptr>, out: seq<Ptr>,
                   ps: seq<Ptr>, b: seq<Ptr>, beyond: seq<Ptr>)
    requires MergeState(kind, next, prev, oldHead, all, out, ps, b + beyond)
    ensures Walk(kind, next, oldHead, ps, false) && Walk(kind, next, oldHead, b + beyond, true)
    ensures NULL !in b && NULL !in beyond
    ensures Last(out) == NULL <==> out == []
    ensures Head(b + beyond) == NULL <==> b + beyond == []
  {
    Apart(all, out, ps, b + beyond);
    assert NULL !in b + beyond;
    assert NULL in b || NULL in beyond ==> NULL in b + beyond;
  }

  lemma FrameRefl(a: Field, all: multiset<Ptr>)
    ensures Frame(a, a, all)
  {
  }

  lemma FrameTrans(a: Field, b: Field, c: Field, all: multiset<Ptr>)
    requires Frame(a, b, all) && Frame(b, c, all)
    ensures Frame(a, c, all)
  {
  }

  lemma MergeNil(a: seq<Ptr>, b: seq<Ptr>, cmp: Compare<Ptr>)
    requires a == [] && b == []
    ensures Merge(a, b, cmp) == []
  {
  }

  /** The inner while-loop: merge the left run at p with the elements b of the right run at q. */
  method MergeRuns(kind: Kind, next0: Field, prev0: Field, oldHead: Ptr, p0: Ptr, psize0: nat, q0: Ptr, insize: nat,
                   list0: Ptr, tail0: Ptr, cmp: Compare<Ptr>, ghost all: multiset<Ptr>,
                   ghost out0: seq<Ptr>, ghost ps0: seq<Ptr>, ghost b0: seq<Ptr>, ghost beyond: seq<Ptr>)
    returns (next: Field, prev: Field, q: Ptr, list: Ptr, tail: Ptr)
    requires MergeState(kind, next0, prev0, oldHead, all, out0, ps0, b0 + beyond)
    requires |ps0| == psize0 && psize0 > 0 && p0 == ps0[0] && q0 == Head(b0 + beyond)
    requires |b0| <= insize && (|b0| < insize ==> beyond == [])
    requires list0 == Head(out0) && tail0 == Last(out0)
    ensures MergeState(kind, next, prev, oldHead, all, out0 + Merge(ps0, b0, cmp), [], beyond)
    ensures q == Head(beyond)
    ensures list == Head(out0 + Merge(ps0, b0, cmp)) && tail == Last(out0 + Merge(ps0, b0, cmp))
    ensures Frame(next0, next, all) && Frame(prev0, prev, all)
    ensures kind.SinglyLinked? ==> prev == prev0
  {
    hide MergeState, Walk, NodeBag, Nodes, Frame, Merge, Takes;
    next, prev, q, list, tail := next0, prev0, q0, list0, tail0;
    var p, psize, qsize: nat := p0, psize0, insize;
    ghost var out, ps, b := out0, ps0, b0;
    FrameRefl(next0, all);
    FrameRefl(prev0, all);
    while psize > 0 || (qsize > 0 && q != NULL)
      invariant |ps| == psize && (ps != [] ==> p == ps[0]) && q == Head(b + beyond)
      invariant |b| <= qsize && (|b| < qsize ==> beyond == [])
      invariant MergeState(kind, next, prev, oldHead, all, out, ps, b + beyond)
      invariant list == Head(out) && tail == Last(out)
      invariant out + Merge(ps, b, cmp) == out0 + Merge(ps0, b0, cmp)
      invariant Frame(next0, next, all) && Frame(prev0, prev, all)
      invariant kind.SinglyLinked? ==> prev == prev0
      decreases psize + qsize
    {
      StateGives(kind, next, prev, oldHead, all, out, ps, b, beyond);
      ghost var ps1, b1, next1, prev1 := ps, b, next, prev;
      var e: Ptr;
      e, p, psize, q, qsize, ps, b := TakeNext(kind, next, oldHead, p, psize, q, qsize, cmp, ps, b, beyond);
      StateAfter(kind, next, prev, oldHead, all, out, ps1, b1, beyond, e, ps, b);
      if tail != NULL {
        next := next[tail := e];
      } else {
        list := e;
      }
      if !kind.SinglyLinked? {
        prev := prev[e := tail];
      }
      tail := e;
      FrameTrans(next0, next1, next, all);
      FrameTrans(prev0, prev1, prev, all);
      assert out + Merge(ps1, b1, cmp) == out + [e] + Merge(ps, b, cmp);
      out := out + [e];
    }
    StateGives(kind, next, prev, oldHead, all, out, ps, b, beyond);
    assert b == [] && b + beyond == beyond && ps == [];
    MergeNil(ps, b, cmp);
    assert out == out0 + Merge(ps0, b0, cmp);
  }

  // ---- One pass ----

  lemma {:induction false} WalkOfLinked(kind: Kind, next: Field, s: seq<Ptr>, i: nat)
    requires Nodes(s) && Linked(next, s, End(kind, s)) && i <= |s|
    ensures Walk(kind, next, Head(s), s[i..], true)
    decreases |s| - i
  {
    if i < |s| {
      NodesDistinct(s);
      WalkOfLinked(kind, next, s, i + 1);
      assert next[s[i]] == if i + 1 < |s| then s[i + 1] else End(kind, s);
      assert s[i..][0] == s[i] && s[i..][1..] == s[i + 1..];
    }
  }

  lemma {:induction false} WalkSplit(kind: Kind, next: Field, oldHead: Ptr, s: seq<Ptr>, m: nat)
    requires Walk(kind, next, oldHead, s, true) && m <= |s|
    ensures Walk(kind, next, oldHead, s[..m], false) && Walk(kind, next, oldHead, s[m..], true)
  {
    if m == 0 {
      assert s[m..] == s;
    } else {
      WalkSplit(kind, next, oldHead, s[1..], m - 1);
      assert s[1..][..m - 1] == s[..m][1..] && s[1..][m - 1..] == s[m..];
    }
  }

  /** The for-loop that steps q over the left run and counts it. */
  method SplitRun(kind: Kind, next: Field, oldHead: Ptr, p: Ptr, insize: nat, ghost rest: seq<Ptr>)
    returns (q: Ptr, psize: nat)
    requires insize >= 1 && rest != [] && p == rest[0] && NULL !in rest
    requires Walk(kind, next, oldHead, rest, true)
    ensures psize == Min(insize, |rest|) && q == Head(rest[psize..])
  {
    q, psize := p, 0;
    var i := 0;
    while i < insize
      invariant i == psize <= insize && psize <= |rest| && q == Head(rest[psize..])
      invariant psize < |rest| || i == insize
      invariant Walk(kind, next, oldHead, rest[psize..], true)
    {
      assert q == rest[psize] && rest[psize..][1..] == rest[psize + 1..];
      psize := psize + 1;
      q := Step(kind, next, oldHead, q);
      if q == NULL { break; }
      i := i + 1;
    }
  }

  /** One iteration of the middle loop: split off the next two runs and merge them. */
  method MergeNext(kind: Kind, next0: Field, prev0: Field, oldHead: Ptr, p: Ptr, insize: nat, list0: Ptr, tail0: Ptr,
                   cmp: Compare<Ptr>, ghost all: multiset<Ptr>, ghost out: seq<Ptr>, ghost rest: seq<Ptr>)
    returns (next: Field, prev: Field, q: Ptr, list: Ptr, tail: Ptr)
    requires insize >= 1 && rest != [] && p == rest[0]
    requires MergeState(kind, next0, prev0, oldHead, all, out, [], rest)
    requires list0 == Head(out) && tail0 == Last(out)
    ensures var m, n := Min(insize, |rest|), Min(2 * insize, |rest|);
            var out' := out + Merge(rest[..m], rest[m..n], cmp);
            && MergeState(kind, next, prev, oldHead, all, out', [], rest[n..])
            && q == Head(rest[n..]) && list == Head(out') && tail == Last(out')
    ensures Frame(next0, next, all) && Frame(prev0, prev, all)
    ensures kind.SinglyLinked? ==> prev == prev0
  {
    hide Walk, NodeBag, Frame, Output;
    Apart(all, out, [], rest);
    NodesDistinct(rest);
    var psize: nat;
    q, psize := SplitRun(kind, next0, oldHead, p, insize, rest);
    ghost var n := Min(2 * insize, |rest|);
    ghost var a, b, c := rest[..psize], rest[psize..n], rest[n..];
    WalkSplit(kind, next0, oldHead, rest, psize);
    assert rest[psize..] == b + c;
    assert rest == a + (b + c);
    assert multiset(rest) == multiset(a) + multiset(b + c);
    next, prev, q, list, tail :=
      MergeRuns(kind, next0, prev0, oldHead, p, psize, q, insize, list0, tail0, cmp, all, out, a, b, c);
  }

  lemma CloseNext(next: Field, out: seq<Ptr>, end: Ptr)
    requires out != [] && Nodes(out)
    requires forall i | 0 <= i < |out| :: out[i] in next
    requires forall i {:trigger next[out[i]]} | 0 <= i < |out| - 1 :: next[out[i]] == out[i + 1]
    ensures Linked(next[Last(out) := end], out, end)
    ensures Frame(next, next[Last(out) := end], multiset(out))
  {
    NodesDistinct(out);
    var next' := next[Last(out) := end];
    forall i | 0 <= i < |out| ensures next'[out[i]] == if i + 1 < |out| then out[i + 1] else end {
      if i + 1 < |out| { assert next[out[i]] == out[i + 1] && out[i] != out[|out| - 1]; }
    }
    assert Last(out) in out;
  }

  lemma ClosePrev(prev: Field, out: seq<Ptr>)
    requires out != [] && Nodes(out) && BackLinked(prev, out, NULL)
    ensures BackLinked(prev[out[0] := Last(out)], out, Last(out))
    ensures Frame(prev, prev[out[0] := Last(out)], multiset(out))
  {
    NodesDistinct(out);
    var prev' := prev[out[0] := Last(out)];
    forall i | 0 <= i < |out| ensures prev'[out[i]] == if i > 0 then out[i - 1] else Last(out) {
      if i > 0 { assert prev[out[i]] == out[i - 1] && out[i] != out[0]; }
    }
    assert out[0] in out;
  }

  /** The assignments after the middle loop: close the list again. */
  lemma CloseList(kind: Kind, next: Field, prev: Field, out: seq<Ptr>)
    requires out != [] && Nodes(out) && Output(kind, next, prev, out)
    ensures var prev' := if kind.DoublyLinked? || kind.Circular? then prev[out[0] := Last(out)] else prev;
            Shape(kind, next[Last(out) := End(kind, out)], prev', out)
    ensures Frame(next, next[Last(out) := End(kind, out)], multiset(out))
    ensures !kind.SinglyLinked? ==> Frame(prev, prev[out[0] := Last(out)], multiset(out))
  {
    hide NodeBag, Linked, BackLinked, Frame;
    CloseNext(next, out, End(kind, out));
    if !kind.SinglyLinked? { ClosePrev(prev, out); }
  }

  lemma PassNil(s: seq<Ptr>, k: nat, cmp: Compare<Ptr>)
    requires k >= 1
    ensures s == [] ==> Pass(s, k, cmp) == []
  {
  }

  lemma PassUnfolds(out: seq<Ptr>, s: seq<Ptr>, k: nat, cmp: Compare<Ptr>)
    requires k >= 1 && s != []
    ensures var m, n := Min(k, |s|), Min(2 * k, |s|);
            out + Pass(s, k, cmp) == out + Merge(s[..m], s[m..n], cmp) + Pass(s[n..], k, cmp)
  {
  }

  /** One iteration of the outer loop. */
  method PassOnce(kind: Kind, next0: Field, prev0: Field, list0: Ptr, insize: nat, cmp: Compare<Ptr>, ghost s: seq<Ptr>)
    returns (next: Field, prev: Field, list: Ptr, tail: Ptr, nmerges: nat)
    requires insize >= 1 && s != [] && list0 == s[0] && Nodes(s) && Linked(next0, s, End(kind, s))
    requires !kind.SinglyLinked? ==> forall x | x in s :: x in prev0
    ensures Shape(kind, next, prev, Pass(s, insize, cmp))
    ensures list == Head(Pass(s, insize, cmp)) && tail == Last(Pass(s, insize, cmp))
    ensures nmerges <= 1 <==> |s| <= 2 * insize
    ensures Frame(next0, next, multiset(s)) && Frame(prev0, prev, multiset(s))
    ensures kind.SinglyLinked? ==> prev == prev0
  {
    hide Walk, NodeBag, Frame, Output, Linked, BackLinked, Merge, Pass;
    next, prev := next0, prev0;
    var p, oldHead := list0, list0;
    list, tail, nmerges := NULL, NULL, 0;
    ghost var all, out, rest := multiset(s), [], s;
    StartState(kind, next, prev, s);
    FrameRefl(next0, all);
    FrameRefl(prev0, all);
    while p != NULL
      invariant p == Head(rest) && list == Head(out) && tail == Last(out)
      invariant MergeState(kind, next, prev, oldHead, all, out, [], rest)
      invariant out + Pass(rest, insize, cmp) == Pass(s, insize, cmp)
      invariant if nmerges == 0 then rest == s else if nmerges == 1 then |rest| + Min(2 * insize, |s|) == |s| else |s| > 2 * insize
      invariant Frame(next0, next, all) && Frame(prev0, prev, all)
      invariant kind.SinglyLinked? ==> prev == prev0
      decreases |rest|
    {
      nmerges := nmerges + 1;
      ghost var m, n := Min(insize, |rest|), Min(2 * insize, |rest|);
      ghost var next1, prev1 := next, prev;
      next, prev, p, list, tail := MergeNext(kind, next, prev, oldHead, p, insize, list, tail, cmp, all, out, rest);
      FrameTrans(next0, next1, next, all);
      FrameTrans(prev0, prev1, prev, all);
      PassUnfolds(out, rest, insize, cmp);
      out := out + Merge(rest[..m], rest[m..n], cmp);
      rest := rest[n..];
    }
    Apart(all, out, [], rest);
    PassNil(rest, insize, cmp);
    assert rest == [] && out == Pass(s, insize, cmp);
    assert multiset(out) == all;
    CloseList(kind, next, prev, out);
    ghost var next1, prev1 := next, prev;
    if kind.DoublyLinked? || kind.Circular? {
      prev := prev[list := tail];
    }
    next := next[tail := if kind.Circular? then list else NULL];
    FrameTrans(next0, next1, next, all);
    if kind.DoublyLinked? || kind.Circular? { FrameTrans(prev0, prev1, prev, all); }
  }

  lemma StartState(kind: Kind, next: Field, prev: Field, s: seq<Ptr>)
    requires s != [] && Nodes(s) && Linked(next, s, End(kind, s))
    requires !kind.SinglyLinked? ==> forall x | x in s :: x in prev
    ensures MergeState(kind, next, prev, s[0], multiset(s), [], [], s)
  {
    WalkOfLinked(kind, next, s, 0);
    assert s[0..] == s;
  }

  // ---- The whole sort ----

  /** The range of the run-length counter: `unsigned` in HASH_SRT, `int` in utlist.h. */
  function CounterRange(kind: Kind): nat { if kind.AppOrder? then 0x1_0000_0000 else 0x8000_0000 }

  /** The sort macros on the list s: every pass, with the run length doubling, until one
      merge covers the list. Nothing is asked of cmp to terminate, to restore the link
      shape and to permute; a total preorder makes the order the stable sorted one. */
  method Sort(kind: Kind, next0: Field, prev0: Field, list0: Ptr, cmp: Compare<Ptr>, ghost s: seq<Ptr>)
    returns (next: Field, prev: Field, list: Ptr, tail: Ptr)
    requires list0 == Head(s) && Nodes(s) && Linked(next0, s, End(kind, s))
    requires !kind.SinglyLinked? ==> forall x | x in s :: x in prev0
    requires |s| < CounterRange(kind)
    ensures multiset(BottomUp(s, 1, cmp)) == multiset(s)
    ensures s != [] ==> Shape(kind, next, prev, BottomUp(s, 1, cmp))
    ensures list == Head(BottomUp(s, 1, cmp)) && tail == Last(BottomUp(s, 1, cmp))
    ensures TotalPreorder(cmp) ==> BottomUp(s, 1, cmp) == InsertionSort(s, cmp)
    ensures Frame(next0, next, multiset(s)) && Frame(prev0, prev, multiset(s))
    ensures kind.SinglyLinked? ==> prev == prev0
  {
    hide NodeBag, Frame, Linked, BackLinked, BottomUp, Pass;
    next, prev, list, tail := next0, prev0, list0, NULL;
    FrameRefl(next0, multiset(s));
    FrameRefl(prev0, multiset(s));
    NodesDistinct(s);
    BottomUpIsPermutation(s, 1, cmp);
    if TotalPreorder(cmp) { BottomUpIsInsertionSort(s, cmp); }
    if list != NULL {
      var insize, looping := 1, true;
      ghost var cur := s;
      while looping
        invariant multiset(cur) == multiset(s) && list == Head(cur)
        invariant Nodes(cur) && Linked(next, cur, End(kind, cur))
        invariant Frame(next0, next, multiset(s)) && Frame(prev0, prev, multiset(s))
        invariant kind.SinglyLinked? ==> prev == prev0
        invariant looping ==> 1 <= insize && cur != [] && BottomUp(cur, insize, cmp) == BottomUp(s, 1, cmp)
        invariant !looping ==> cur == BottomUp(s, 1, cmp) && tail == Last(cur) && Shape(kind, next, prev, cur)
        decreases looping, if looping && |cur| > 2 * insize then |cur| - 2 * insize else 0
      {
        ghost var next1, prev1, before := next, prev, cur;
        SameLength(s, cur);
        FrameKeepsNodes(kind, prev0, prev, s, cur);
        var nmerges;
        next, prev, list, tail, nmerges := PassOnce(kind, next, prev, list, insize, cmp, cur);
        PassIsPermutation(cur, insize, cmp);
        FrameTrans(next0, next1, next, multiset(s));
        FrameTrans(prev0, prev1, prev, multiset(s));
        cur := Pass(cur, insize, cmp);
        if nmerges <= 1 {
          looping := false;
        }
        Doubles(insize, |before|, CounterRange(kind));
        BottomUpStep(before, insize, cmp);
        insize := (insize * 2) % CounterRange(kind);
      }
    }
  }

  lemma Doubles(k: nat, n: nat, range: nat)
    requires n < range
    ensures n > 2 * k ==> (k * 2) % range == 2 * k
  {
  }

  lemma BottomUpStep(s: seq<Ptr>, k: nat, cmp: Compare<Ptr>)
    requires k >= 1
    ensures |Pass(s, k, cmp)| == |s|
    ensures BottomUp(s, k, cmp) == if |s| <= 2 * k then Pass(s, k, cmp) else BottomUp(Pass(s, k, cmp), 2 * k, cmp)
  {
  }

  lemma SameLength(a: seq<Ptr>, b: seq<Ptr>)
    requires multiset(a) == multiset(b)
    ensures |a| == |b|
  {
    assert |multiset(a)| == |a| && |multiset(b)| == |b|;
  }

  lemma FrameKeepsNodes(kind: Kind, prev0: Field, prev: Field, s: seq<Ptr>, cur: seq<Ptr>)
    requires multiset(cur) == multiset(s) && Frame(prev0, prev, multiset(s))
    requires !kind.SinglyLinked? ==> forall x | x in s :: x in prev0
    ensures !kind.SinglyLinked? ==> forall x | x in cur :: x in prev
  {
    forall x | x in cur ensures x in s { assert x in multiset(cur); }
  }
}
