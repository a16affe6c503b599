/** How client_loop numbers clients: a new client takes last_client_id and increments it, a
    removal decrements it. The dispatcher model takes ids to be distinct; this is when they are. */
module ClientIds {

  datatype Ids = Ids(live: set<int>, last: int)

  datatype Op = Join | Leave(id: int)

  const START: Ids := Ids({}, 1)

  ghost predicate Legal(s: Ids, op: Op) { op.Leave? ==> op.id in s.live }

  /** The id given out is not in use. */
  predicate Fresh(s: Ids) { s.last !in s.live }

  function Apply(s: Ids, op: Op): Ids {
    match op
    case Join => Ids(s.live + {s.last}, s.last + 1)
    case Leave(id) => Ids(s.live - {id}, s.last - 1)
  }

  ghost predicate IsRun(states: seq<Ids>, ops: seq<Op>) {
    && |states| == |ops| + 1 && states[0] == START
    && forall i | 0 <= i < |ops| :: Legal(states[i], ops[i]) && states[i + 1] == Apply(states[i], ops[i])
  }

  /** Every client that leaves is the one that joined last. */
  ghost predicate LastInFirstOut(states: seq<Ids>, ops: seq<Op>)
    requires |states| == |ops| + 1
  {
    forall i | 0 <= i < |ops| :: ops[i].Leave? ==> ops[i].id == states[i].last - 1
  }

  ghost predicate Contiguous(s: Ids) { s.last >= 1 && forall id :: id in s.live <==> 1 <= id < s.last }

  /** If clients leave last in, first out, the live ids are 1 to last - 1, so that every new id
      is a fresh one. */
  lemma {:induction false} LifoIdsAreDistinct(states: seq<Ids>, ops: seq<Op>, i: nat)
    requires IsRun(states, ops) && LastInFirstOut(states, ops) && i <= |ops|
    ensures Contiguous(states[i]) && Fresh(states[i])
  {
    if i > 0 {
      LifoIdsAreDistinct(states, ops, i - 1);
      assert Legal(states[i - 1], ops[i - 1]) && states[i - 1 + 1] == Apply(states[i - 1], ops[i - 1]);
    }
  }

  /** As long as ids have been distinct, last_client_id counts the live clients. */
  lemma {:induction false} LastCountsClients(states: seq<Ids>, ops: seq<Op>, i: nat)
    requires IsRun(states, ops) && i <= |ops|
    requires forall j | 0 <= j < i :: ops[j].Join? ==> Fresh(states[j])
    ensures states[i].last == |states[i].live| + 1
  {
    if i > 0 {
      LastCountsClients(states, ops, i - 1);
      assert Legal(states[i - 1], ops[i - 1]) && states[i - 1 + 1] == Apply(states[i - 1], ops[i - 1]);
      assert ops[i - 1].Join? ==> Fresh(states[i - 1]);
    }
  }

  /** In every run whose ids have been distinct so far, in whatever order clients left: the next id
      is fresh if and only if nobody holds the number of live clients plus one. */
  lemma FreshExactly(states: seq<Ids>, ops: seq<Op>, i: nat)
    requires IsRun(states, ops) && i <= |ops|
    requires forall j | 0 <= j < i :: ops[j].Join? ==> Fresh(states[j])
    ensures Fresh(states[i]) <==> |states[i].live| + 1 !in states[i].live
  {
    LastCountsClients(states, ops, i);
  }

  /** Some client that joins gets an id in use. */
  ghost predicate Clashes(states: seq<Ids>, ops: seq<Op>)
    requires |states| == |ops| + 1
  {
    exists i | 0 <= i < |ops| :: ops[i].Join? && !Fresh(states[i])
  }

  ghost predicate ClashesBefore(states: seq<Ids>, ops: seq<Op>, n: nat)
    requires |states| == |ops| + 1 && n <= |ops|
  {
    exists i | 0 <= i < n :: ops[i].Join? && |states[i].live| + 1 in states[i].live
  }

  lemma {:induction false} ClashPrefix(states: seq<Ids>, ops: seq<Op>, n: nat)
    requires IsRun(states, ops) && n <= |ops| && !ClashesBefore(states, ops, n)
    ensures forall j | 0 <= j < n :: ops[j].Join? ==> Fresh(states[j])
  {
    if n > 0 {
      ClashPrefix(states, ops, n - 1);
      FreshExactly(states, ops, n - 1);
    }
  }

  /** A whole run gives out an id in use if and only if at some join the number of live clients plus
      one is the id of one of them. */
  lemma ClashesExactly(states: seq<Ids>, ops: seq<Op>)
    requires IsRun(states, ops)
    ensures Clashes(states, ops) <==> ClashesBefore(states, ops, |ops|)
  {
    if !ClashesBefore(states, ops, |ops|) {
      ClashPrefix(states, ops, |ops|);
    } else {
      var n :| 0 <= n < |ops| && ops[n].Join? && |states[n].live| + 1 in states[n].live;
      if !Clashes(states, ops) { FreshExactly(states, ops, n); }
    }
  }

  /** With the live ids 1 to n, a client that leaves makes the next id fresh exactly when it is
      the last; if any other leaves, the next client gets the id of a live one. */
  lemma LeavingOutOfOrderClashes(s: Ids, id: int)
    requires Contiguous(s) && id in s.live
    ensures Fresh(Apply(s, Leave(id))) <==> id == s.last - 1
  {
    assert s.last - 1 in s.live - {id} <==> id != s.last - 1;
  }

  /** Two clients join, the first leaves, a third joins: ids 2 and 2. */
  lemma TwoClientsShareAnId()
    ensures var states := [START, Ids({1}, 2), Ids({1, 2}, 3), Ids({2}, 2)];
            IsRun(states, [Join, Join, Leave(1)]) && !Fresh(states[3])
  {
    assert Ids({}, 1).live + {1} == {1} && {1} + {2} == {1, 2} && {1, 2} - {1} == {2};
  }

  /** Three clients join, the two older ones leave, two more join: the first gets the fresh id 2, the
      second the id 3 of the client that stayed. */
  lemma OutOfOrderMayClashLater()
    ensures var states := [START, Ids({1}, 2), Ids({1, 2}, 3), Ids({1, 2, 3}, 4), Ids({2, 3}, 3), Ids({3}, 2), Ids({2, 3}, 3)];
            IsRun(states, [Join, Join, Join, Leave(1), Leave(2), Join]) && Fresh(states[5]) && !Fresh(states[6])
  {
    assert {} + {1} == {1} && {1} + {2} == {1, 2} && {1, 2} + {3} == {1, 2, 3};
    assert {1, 2, 3} - {1} == {2, 3} && {2, 3} - {2} == {3} && {3} + {2} == {2, 3};
  }
}
