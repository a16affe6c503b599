/** Which client push_solution chooses, and where the work of a removed client goes: the
    dispatcher of server.c as functions on values, one call at a time. */
module DispatchSpec {
  import opened Options
  import ServerModel

  type ClientId = ServerModel.ClientId
  type Compiler = ServerModel.Compiler
  type SolutionId = ServerModel.SolutionId

  datatype Load = Load(queue: seq<SolutionId>, checking: Option<SolutionId>)

  /** clients_map, compilers_map with each clients_list, and the ids posted as "FL". */
  datatype Net = Net(clients: map<ClientId, Load>, lists: map<Compiler, seq<ClientId>>, failed: seq<SolutionId>)

  /** The load expression of server.c groups as (count + busy) ? 1 : 0. */
  function LoadOf(c: Load): nat {
    if |c.queue| + (if c.checking.Some? then 1 else 0) != 0 then 1 else 0
  }

  /** A live client with nothing queued and nothing under check. */
  predicate Idle(net: Net, id: ClientId) {
    id in net.clients && net.clients[id].queue == [] && net.clients[id].checking.None?
  }

  /** The scan of push_solution from position i on, with the best client so far. */
  function Scan(net: Net, list: seq<ClientId>, i: nat, best: Option<ClientId>): Option<ClientId>
    requires i <= |list|
    decreases |list| - i
  {
    if i == |list| then best
    else if list[i] !in net.clients then Scan(net, list, i + 1, best)
    else if LoadOf(net.clients[list[i]]) == 0 then Some(list[i])
    else Scan(net, list, i + 1, Some(list[i]))
  }

  function Choose(net: Net, k: Compiler): Option<ClientId> {
    if k in net.lists then Scan(net, net.lists[k], 0, None) else None
  }

  // ---- What the choice is ----

  ghost predicate FirstIdle(net: Net, list: seq<ClientId>, i: nat) {
    i < |list| && Idle(net, list[i]) && forall j | 0 <= j < i :: !Idle(net, list[j])
  }

  ghost predicate LastLive(net: Net, list: seq<ClientId>, i: nat) {
    i < |list| && list[i] in net.clients && forall j | i < j < |list| :: list[j] !in net.clients
  }

  ghost predicate SomeLive(net: Net, list: seq<ClientId>) { exists i | 0 <= i < |list| :: list[i] in net.clients }

  ghost predicate SomeIdle(net: Net, list: seq<ClientId>) { exists i | 0 <= i < |list| :: Idle(net, list[i]) }

  ghost predicate IsChoice(net: Net, list: seq<ClientId>, id: ClientId) {
    if SomeIdle(net, list) then exists a: nat :: FirstIdle(net, list, a) && list[a] == id
    else exists a: nat :: LastLive(net, list, a) && list[a] == id
  }

  lemma {:induction false} ScanChooses(net: Net, list: seq<ClientId>, i: nat, best: Option<ClientId>)
    requires i <= |list|
    requires forall j | 0 <= j < i :: !Idle(net, list[j])
    requires best.None? ==> forall j | 0 <= j < i :: list[j] !in net.clients
    requires best.Some? ==> exists b | 0 <= b < i :: list[b] == best.value && list[b] in net.clients
                                                    && forall j | b < j < i :: list[j] !in net.clients
    ensures var r := Scan(net, list, i, best);
            && (r.None? <==> !SomeLive(net, list))
            && (r.Some? ==> IsChoice(net, list, r.value))
    decreases |list| - i
  {
    if i == |list| {
      if best.Some? {
        var b :| 0 <= b < i && list[b] == best.value && list[b] in net.clients
                 && forall j | b < j < i :: list[j] !in net.clients;
        assert LastLive(net, list, b);
      }
    } else if list[i] !in net.clients {
      if best.Some? {
        var b :| 0 <= b < i && list[b] == best.value && list[b] in net.clients
                 && forall j | b < j < i :: list[j] !in net.clients;
        assert forall j | b < j < i + 1 :: list[j] !in net.clients;
      }
      ScanChooses(net, list, i + 1, best);
    } else if Idle(net, list[i]) {
      assert FirstIdle(net, list, i);
    } else {
      ScanChooses(net, list, i + 1, Some(list[i]));
    }
  }

  /** push_solution picks the first idle live client in list order if any is idle, otherwise the
      last live one, and picks nobody exactly when the compiler is unknown or has none. */
  lemma ChoiceIsFirstIdleOrLastLive(net: Net, k: Compiler)
    ensures var r := Choose(net, k);
            && (r.None? <==> k !in net.lists || !SomeLive(net, net.lists[k]))
            && (r.Some? ==> r.value in net.clients && r.value in net.lists[k] && IsChoice(net, net.lists[k], r.value))
  {
    if k in net.lists { ScanChooses(net, net.lists[k], 0, None); }
  }

  /** The description leaves no choice. */
  lemma ChoiceUnique(net: Net, list: seq<ClientId>, a: ClientId, b: ClientId)
    requires IsChoice(net, list, a) && IsChoice(net, list, b)
    ensures a == b
  {
    if SomeIdle(net, list) {
      var i: nat :| FirstIdle(net, list, i) && list[i] == a;
      var j: nat :| FirstIdle(net, list, j) && list[j] == b;
      assert i == j;
    } else {
      var i: nat :| LastLive(net, list, i) && list[i] == a;
      var j: nat :| LastLive(net, list, j) && list[j] == b;
      assert i == j;
    }
  }

  // ---- One push ----

  function Enqueue(net: Net, id: ClientId, x: SolutionId): Net
    requires id in net.clients
  {
    var c := net.clients[id];
    net.(clients := net.clients[id := c.(queue := c.queue + [x])])
  }

  function Push(net: Net, x: SolutionId, k: Compiler): Net {
    var r := Choose(net, k);
    if r.Some? && r.value in net.clients then Enqueue(net, r.value, x) else net.(failed := net.failed + [x])
  }

  // ---- remove_client ----

  function Forget(net: Net, id: ClientId): Net {
    net.(lists := map k | k in net.lists :: ServerModel.Without(net.lists[k], id), clients := net.clients - {id})
  }

  function WorkOf(c: Load): seq<SolutionId> {
    (if c.checking.Some? then [c.checking.value] else []) + c.queue
  }

  function PushAll(net: Net, work: seq<SolutionId>, compilerOf: SolutionId -> Compiler): Net
    decreases |work|
  {
    if work == [] then net else PushAll(Push(net, work[0], compilerOf(work[0])), work[1..], compilerOf)
  }

  function Remove(net: Net, id: ClientId, compilerOf: SolutionId -> Compiler): Net {
    if id in net.clients then PushAll(Forget(net, id), WorkOf(net.clients[id]), compilerOf) else net
  }

  /** Where each piece of work goes: to a client, or to nobody. */
  function Destinations(net: Net, work: seq<SolutionId>, compilerOf: SolutionId -> Compiler): (r: seq<Option<ClientId>>)
    ensures |r| == |work|
    decreases |work|
  {
    if work == [] then []
    else [Choose(net, compilerOf(work[0]))]
         + Destinations(Push(net, work[0], compilerOf(work[0])), work[1..], compilerOf)
  }

  /** The work sent to d, in order. */
  function SentTo(work: seq<SolutionId>, dests: seq<Option<ClientId>>, d: Option<ClientId>): seq<SolutionId>
    requires |work| == |dests|
  {
    if work == [] then []
    else (if dests[0] == d then [work[0]] else []) + SentTo(work[1..], dests[1..], d)
  }

  /** net' differs from net by the deliveries alone. */
  ghost predicate Delivered(net: Net, net': Net, work: seq<SolutionId>, dests: seq<Option<ClientId>>)
    requires |work| == |dests|
  {
    && net'.lists == net.lists
    && net'.clients.Keys == net.clients.Keys
    && net'.failed == net.failed + SentTo(work, dests, None)
    && forall c | c in net.clients ::
         && net'.clients[c].checking == net.clients[c].checking
         && net'.clients[c].queue == net.clients[c].queue + SentTo(work, dests, Some(c))
  }

  lemma SentOne(x: SolutionId, d: Option<ClientId>, o: Option<ClientId>)
    ensures SentTo([x], [d], o) == if d == o then [x] else []
  {
  }

  lemma SentCons(x: SolutionId, d: Option<ClientId>, work: seq<SolutionId>, dests: seq<Option<ClientId>>, o: Option<ClientId>)
    requires |work| == |dests|
    ensures SentTo([x] + work, [d] + dests, o) == SentTo([x], [d], o) + SentTo(work, dests, o)
  {
    assert ([x] + work)[1..] == work && ([d] + dests)[1..] == dests;
    SentOne(x, d, o);
  }

  lemma PushDelivers(net: Net, x: SolutionId, k: Compiler)
    ensures Delivered(net, Push(net, x, k), [x], [Choose(net, k)])
  {
    ChoiceIsFirstIdleOrLastLive(net, k);
    var d := Choose(net, k);
    forall o: Option<ClientId> ensures SentTo([x], [d], o) == if d == o then [x] else [] { SentOne(x, d, o); }
  }

  lemma DeliveredCons(net: Net, mid: Net, net': Net, x: SolutionId, d: Option<ClientId>,
                      work: seq<SolutionId>, dests: seq<Option<ClientId>>)
    requires |work| == |dests| && Delivered(net, mid, [x], [d]) && Delivered(mid, net', work, dests)
    ensures Delivered(net, net', [x] + work, [d] + dests)
  {
    hide SentTo;
    SentCons(x, d, work, dests, None);
    forall c | c in net.clients
      ensures net'.clients[c].queue == net.clients[c].queue + SentTo([x] + work, [d] + dests, Some(c))
    {
      SentCons(x, d, work, dests, Some(c));
      assert c in mid.clients;
    }
  }

  lemma {:induction false} PushAllDelivers(net: Net, work: seq<SolutionId>, compilerOf: SolutionId -> Compiler)
    ensures Delivered(net, PushAll(net, work, compilerOf), work, Destinations(net, work, compilerOf))
    decreases |work|
  {
    hide Delivered, Push, Choose;
    if work == [] {
      NothingDelivered(net);
    } else {
      var x := work[0];
      var mid := Push(net, x, compilerOf(x));
      PushDelivers(net, x, compilerOf(x));
      PushAllDelivers(mid, work[1..], compilerOf);
      DeliveredCons(net, mid, PushAll(mid, work[1..], compilerOf), x, Choose(net, compilerOf(x)),
                    work[1..], Destinations(mid, work[1..], compilerOf));
      assert work == [x] + work[1..];
    }
  }

  lemma NothingDelivered(net: Net)
    ensures Delivered(net, net, [], [])
  {
  }

  /** A piece of work goes to a live client listed for its compiler, or to nobody if there is
      none: pushes before it change neither who is live nor who is listed. */
  ghost predicate ProperDestination(net: Net, k: Compiler, d: Option<ClientId>) {
    && (d.None? <==> k !in net.lists || !SomeLive(net, net.lists[k]))
    && (d.Some? ==> k in net.lists && d.value in net.lists[k] && d.value in net.clients)
  }

  lemma {:induction false} DestinationsProper(net: Net, work: seq<SolutionId>, compilerOf: SolutionId -> Compiler, i: nat)
    requires i < |work|
    ensures ProperDestination(net, compilerOf(work[i]), Destinations(net, work, compilerOf)[i])
    decreases |work|
  {
    hide Choose, Push;
    ChoiceIsFirstIdleOrLastLive(net, compilerOf(work[0]));
    if i > 0 {
      var mid := Push(net, work[0], compilerOf(work[0]));
      DestinationsProper(mid, work[1..], compilerOf, i - 1);
      PushDelivers(net, work[0], compilerOf(work[0]));
    }
  }

  /** Re-delegation: the removed client's solution under check and then its queue, in order, go
      each to one live client listed for its compiler or fail; nothing returns to it; every
      other queue grows at the end by what was sent there and by nothing else. */
  lemma RemovalRedelegates(net: Net, id: ClientId, compilerOf: SolutionId -> Compiler)
    requires id in net.clients
    ensures var base, net' := Forget(net, id), Remove(net, id, compilerOf);
            var work := WorkOf(net.clients[id]);
            var dests := Destinations(base, work, compilerOf);
            && Delivered(base, net', work, dests)
            && net'.clients.Keys == net.clients.Keys - {id}
            && (forall k | k in net'.lists :: id !in net'.lists[k])
            && (forall i | 0 <= i < |work| :: dests[i] != Some(id) && ProperDestination(base, compilerOf(work[i]), dests[i]))
  {
    hide Delivered, Choose, Destinations, PushAll, ProperDestination;
    var base := Forget(net, id);
    var work := WorkOf(net.clients[id]);
    PushAllDelivers(base, work, compilerOf);
    DeliveredGives(base, PushAll(base, work, compilerOf), work, Destinations(base, work, compilerOf));
    forall i | 0 <= i < |work|
      ensures Destinations(base, work, compilerOf)[i] != Some(id)
              && ProperDestination(base, compilerOf(work[i]), Destinations(base, work, compilerOf)[i])
    {
      DestinationsProper(base, work, compilerOf, i);
      ProperGives(base, compilerOf(work[i]), Destinations(base, work, compilerOf)[i]);
    }
  }

  lemma ProperGives(net: Net, k: Compiler, d: Option<ClientId>)
    requires ProperDestination(net, k, d)
    ensures d.Some? ==> d.value in net.clients
  {
  }

  lemma DeliveredGives(net: Net, net': Net, work: seq<SolutionId>, dests: seq<Option<ClientId>>)
    requires |work| == |dests| && Delivered(net, net', work, dests)
    ensures net'.lists == net.lists && net'.clients.Keys == net.clients.Keys
  {
  }
}
