/** The linked queue of utils.c: heap nodes, a head, a tail that goes stale when the queue
    empties, and a 32-bit element count that decides which of the two a push writes through. */
module Queue {
  import opened Pointers

  class Node {
    var value: Ptr
    var next: Node?

    constructor (value: Ptr)
      ensures this.value == value && next == null
    {
      this.value, this.next := value, null;
    }
  }

  /** elems_count is a uint32. */
  const COUNT_RANGE: nat := 0x1_0000_0000

  class List {
    var elemsCount: nat
    var head: Node?
    var tail: Node?

    ghost var nodes: seq<Node>   // the elements, first to last
    ghost var freed: set<Node>   // elements passed to free()
    ghost var repr: set<Node>    // every element ever allocated for this queue

    ghost predicate Valid()
      reads this, repr
    {
      && |nodes| <= COUNT_RANGE && elemsCount == |nodes| % COUNT_RANGE
      && (forall i | 0 <= i < |nodes| :: nodes[i] in repr)
      && (forall i, j | 0 <= i < j < |nodes| :: nodes[i] != nodes[j])
      && (forall i | 0 <= i < |nodes| :: nodes[i] !in freed)
      && head == (if nodes == [] then null else nodes[0])
      && (nodes != [] ==> tail == nodes[|nodes| - 1])
      && forall i {:trigger nodes[i].next} | 0 <= i < |nodes| ::
           nodes[i].next == if i + 1 < |nodes| then nodes[i + 1] else null
    }

    ghost function Contents(): (r: seq<Ptr>)
      requires Valid()
      reads this, repr
    {
      Values(nodes)
    }

    /** queue_init */
    constructor ()
      ensures Valid() && Contents() == [] && repr == {}
    {
      elemsCount, head, tail, nodes, freed, repr := 0, null, null, [], {}, {};
    }
  }

  ghost function Values(nodes: seq<Node>): seq<Ptr>
    reads nodes
  {
    seq(|nodes|, i requires 0 <= i < |nodes| reads nodes => nodes[i].value)
  }

  ghost function ReprOf(q: List?): set<Node>
    reads q
  {
    if q == null then {} else q.repr
  }

  /** What a push makes of the elements s: the push that finds 2^32 of them reads a count of 0 and
      starts the queue afresh. */
  function Pushed(s: seq<Ptr>, value: Ptr): seq<Ptr> { if |s| == 0x1_0000_0000 then [value] else s + [value] }

  /** queue_push. The assertions: no element that has been freed is written through. */
  method Push(q: List?, value: Ptr)
    requires q != null ==> q.Valid()
    modifies q, ReprOf(q)
    ensures q != null ==> q.Valid() && q.Contents() == Pushed(old(q.Contents()), value)
    ensures q != null ==> fresh(q.repr - old(q.repr))
  {
    if q == null { return; }
    var elem := new Node(value);
    if q.elemsCount == 0 {
      StartWith(q, elem);
    } else if q.elemsCount == 1 {
      assert q.head in q.nodes && q.head !in q.freed;
      AppendAfter(q, q.head, elem);
    } else {
      assert q.tail in q.nodes && q.tail !in q.freed;
      AppendAfter(q, q.tail, elem);
    }
  }

  /** The branch for elems_count == 0. */
  method StartWith(q: List, elem: Node)
    requires q.Valid() && q.elemsCount == 0 && elem !in q.freed && elem.next == null
    modifies q
    ensures q.Valid() && q.Contents() == [elem.value] && q.repr == old(q.repr) + {elem}
  {
    q.head, q.tail := elem, elem;
    q.elemsCount := 1;
    q.nodes, q.repr := [elem], q.repr + {elem};
  }

  /** The other two branches: they differ in how they reach the last element. */
  method AppendAfter(q: List, last: Node, elem: Node)
    requires q.Valid() && 0 < |q.nodes| < COUNT_RANGE && last == q.nodes[|q.nodes| - 1]
    requires elem !in q.repr && elem !in q.freed && elem.next == null
    modifies q, last
    ensures q.Valid() && q.Contents() == old(q.Contents()) + [elem.value] && q.repr == old(q.repr) + {elem}
  {
    last.next := elem;
    q.tail := elem;
    q.elemsCount := (q.elemsCount + 1) % COUNT_RANGE;
    q.nodes, q.repr := q.nodes + [elem], q.repr + {elem};
  }

  /** queue_pop: NULL from a NULL or empty queue, the oldest value otherwise. */
  method Pop(q: List?) returns (value: Ptr)
    requires q != null ==> q.Valid()
    modifies q
    ensures q == null ==> value == NULL
    ensures q != null ==> q.Valid()
    ensures q != null ==> q.repr == old(q.repr)
    ensures q != null && old(q.Contents()) == [] ==> value == NULL && q.Contents() == []
    ensures q != null && old(q.Contents()) != [] ==> [value] + q.Contents() == old(q.Contents())
  {
    if q == null { return NULL; }
    var elem := q.head;
    if elem == null { return NULL; }
    value := elem.value;
    q.head := elem.next;
    q.elemsCount := (q.elemsCount + COUNT_RANGE - 1) % COUNT_RANGE;
    q.freed := q.freed + {elem};
    q.nodes := q.nodes[1..];
    assert [value] + q.Contents() == old(q.Contents());
  }

  /** queue_iterate: `visited` is what the callback is given. */
  method Iterate(q: List?) returns (visited: seq<Ptr>)
    requires q != null ==> q.Valid()
    ensures visited == if q == null || |q.Contents()| == 0x1_0000_0000 then [] else q.Contents()
  {
    visited := [];
    if q == null || q.elemsCount == 0 { return; }
    var cur := q.head;
    ghost var i := 0;
    while cur != null
      invariant i <= |q.nodes| && cur == if i < |q.nodes| then q.nodes[i] else null
      invariant visited == q.Contents()[..i]
      decreases |q.nodes| - i
    {
      visited := visited + [cur.value];
      cur := cur.next;
      i := i + 1;
    }
  }

  // ---- Runs ----

  datatype Op = PushOp(value: Ptr) | PopOp

  function Left(s: seq<Ptr>, op: Op): seq<Ptr> {
    match op
    case PushOp(v) => Pushed(s, v)
    case PopOp => if s == [] then [] else s[1..]
  }

  function Out(s: seq<Ptr>, op: Op): seq<Ptr> { if op.PopOp? && s != [] then [s[0]] else [] }

  function In(op: Op): seq<Ptr> { if op.PushOp? then [op.value] else [] }

  /** The elements after a run that starts with s. */
  function After(s: seq<Ptr>, ops: seq<Op>): seq<Ptr>
    decreases |ops|
  {
    if ops == [] then s else After(Left(s, ops[0]), ops[1..])
  }

  /** What the pops of the run take out, leaving aside those that find nothing. */
  function Taken(s: seq<Ptr>, ops: seq<Op>): seq<Ptr>
    decreases |ops|
  {
    if ops == [] then [] else Out(s, ops[0]) + Taken(Left(s, ops[0]), ops[1..])
  }

  function Given(ops: seq<Op>): seq<Ptr> {
    if ops == [] then [] else In(ops[0]) + Given(ops[1..])
  }

  /** No push of the run finds 2^32 elements. */
  predicate NeverFull(s: seq<Ptr>, ops: seq<Op>)
    decreases |ops|
  {
    ops == [] || (!(ops[0].PushOp? && |s| == 0x1_0000_0000) && NeverFull(Left(s, ops[0]), ops[1..]))
  }

  lemma OneInOneOut(s: seq<Ptr>, op: Op)
    requires |s| <= 0x1_0000_0000
    ensures |Left(s, op)| <= 0x1_0000_0000
    ensures !(op.PushOp? && |s| == 0x1_0000_0000) ==> Out(s, op) + Left(s, op) == s + In(op)
    ensures op.PushOp? && |s| == 0x1_0000_0000 ==> |Out(s, op)| + |Left(s, op)| < |s| + |In(op)|
    ensures |Out(s, op)| + |Left(s, op)| <= |s| + |In(op)|
  {
  }

  /** A run never gains elements. */
  lemma {:induction false} NothingGained(s: seq<Ptr>, ops: seq<Op>)
    requires |s| <= 0x1_0000_0000
    ensures |Taken(s, ops)| + |After(s, ops)| <= |s| + |Given(ops)|
    decreases |ops|
  {
    hide Out, Left, In;
    if ops != [] {
      OneInOneOut(s, ops[0]);
      NothingGained(Left(s, ops[0]), ops[1..]);
    }
  }

  /** First in, first out: what is taken out followed by what is left is what was there followed by what
      is put in, if and only if no push finds 2^32 elements. */
  lemma {:induction false} FirstInFirstOut(s: seq<Ptr>, ops: seq<Op>)
    requires |s| <= 0x1_0000_0000
    ensures Taken(s, ops) + After(s, ops) == s + Given(ops) <==> NeverFull(s, ops)
    decreases |ops|
  {
    hide Out, Left, In;
    if ops != [] {
      var o, l, i := Out(s, ops[0]), Left(s, ops[0]), In(ops[0]);
      OneInOneOut(s, ops[0]);
      if ops[0].PushOp? && |s| == 0x1_0000_0000 {
        NothingGained(l, ops[1..]);
        assert |Taken(s, ops) + After(s, ops)| < |s + Given(ops)|;
      } else {
        FirstInFirstOut(l, ops[1..]);
        var t, a, g := Taken(l, ops[1..]), After(l, ops[1..]), Given(ops[1..]);
        assert (o + t) + a == o + (t + a) && s + (i + g) == (s + i) + g && (o + l) + g == o + (l + g);
        SamePrefix(o, t + a, l + g);
      }
    }
  }

  lemma SamePrefix(o: seq<Ptr>, a: seq<Ptr>, b: seq<Ptr>)
    ensures o + a == o + b <==> a == b
  {
    assert (o + a)[|o|..] == a && (o + b)[|o|..] == b;
  }

  method PerformOne(q: List, op: Op) returns (out: seq<Ptr>)
    requires q.Valid()
    modifies q, q.repr
    ensures q.Valid() && fresh(q.repr - old(q.repr))
    ensures q.Contents() == Left(old(q.Contents()), op) && out == Out(old(q.Contents()), op)
  {
    out := [];
    if op.PushOp? {
      Push(q, op.value);
    } else {
      var found := q.head != null;
      var value := Pop(q);
      if found { out := [value]; }
    }
  }

  /** Any sequence of calls on a real queue: the values that come out are the ones above. A pop made
      where elems_count is not 0 finds an element, as the thread pool and process_solutions rely
      on. */
  method Perform(q: List, ops: seq<Op>) returns (out: seq<Ptr>)
    requires q.Valid()
    modifies q, q.repr
    ensures q.Valid() && q.Contents() == After(old(q.Contents()), ops)
    ensures out == Taken(old(q.Contents()), ops)
  {
    hide Left, Out;
    out := [];
    var i := 0;
    assert ops[0..] == ops;
    while i < |ops|
      invariant i <= |ops| && q.Valid() && fresh(q.repr - old(q.repr))
      invariant After(q.Contents(), ops[i..]) == After(old(q.Contents()), ops)
      invariant out + Taken(q.Contents(), ops[i..]) == Taken(old(q.Contents()), ops)
    {
      assert ops[i..][0] == ops[i] && ops[i..][1..] == ops[i + 1..];
      var took := PerformOne(q, ops[i]);
      out := out + took;
      i := i + 1;
    }
  }
}
