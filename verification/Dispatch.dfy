/** push_solution and remove_client as they run: client objects on the heap, reached through
    clients_map, their queues and checking slots updated in place. */
module Dispatch {
  import opened Options
  import ServerModel
  import opened DispatchSpec

  class Client {
    var queue: seq<SolutionId>
    var checking: Option<SolutionId>

    constructor ()
      ensures queue == [] && checking == None
    {
      queue, checking := [], None;
    }
  }

  ghost function Loads(clients: map<ClientId, Client>): map<ClientId, Load>
    reads clients.Values
  {
    map id | id in clients :: Load(clients[id].queue, clients[id].checking)
  }

  /** Different ids, different objects. */
  ghost predicate Injective(clients: map<ClientId, Client>) {
    forall a, b | a in clients && b in clients && clients[a] == clients[b] :: a == b
  }

  class Server {
    var clients: map<ClientId, Client>
    var lists: map<Compiler, seq<ClientId>>
    var lastClientId: int
    var failed: seq<SolutionId>

    ghost predicate Valid()
      reads this
    {
      Injective(clients)
    }

    ghost function View(): Net
      reads this, clients.Values
    {
      Net(Loads(clients), lists, failed)
    }

    constructor ()
      ensures Valid() && clients == map[] && lists == map[] && failed == [] && lastClientId == 1
    {
      clients, lists, lastClientId, failed := map[], map[], 1, [];
    }

    /** The scan for the client with the least load. */
    method ChooseClient(list: seq<ClientId>) returns (best: Option<ClientId>)
      ensures best == Scan(View(), list, 0, None)
      ensures best.Some? ==> best.value in clients
    {
      var minLoading := 0x7fff_ffff;
      best := None;
      var i := 0;
      while i < |list|
        invariant i <= |list| && 1 <= minLoading
        invariant Scan(View(), list, i, best) == Scan(View(), list, 0, None)
        invariant best.Some? ==> best.value in clients
      {
        var id := list[i];
        i := i + 1;
        if id !in clients { continue; }
        var cur := clients[id];
        var curLoading := if |cur.queue| + (if cur.checking.Some? then 1 else 0) != 0 then 1 else 0;
        if curLoading == 0 {
          best := Some(id);
          break;
        }
        if curLoading <= minLoading {
          minLoading := curLoading;
          best := Some(id);
        }
      }
    }

    /** push_solution: 0, ERR_NOCOMPILER or ERR_NOCLIENTS. */
    method PushSolution(x: SolutionId, k: Compiler) returns (code: nat)
      requires Valid()
      modifies this`failed, clients.Values
      ensures View() == Push(old(View()), x, k)
      ensures code == if k !in lists then 1 else if Choose(old(View()), k).None? then 2 else 0
      ensures clients == old(clients) && lists == old(lists)
    {
      if k !in lists {
        failed := failed + [x];
        return 1;
      }
      var best := ChooseClient(lists[k]);
      if best.None? {
        failed := failed + [x];
        return 2;
      }
      var c := clients[best.value];
      assert forall id | id in clients && clients[id] == c :: id == best.value;
      c.queue := c.queue + [x];
      assert View().clients == Push(old(View()), x, k).clients;
      return 0;
    }

    /** Lines 426 to 435: the id leaves every compiler's list. */
    method ForgetId(id: ClientId)
      modifies this`lists
      ensures lists == map k | k in old(lists) :: ServerModel.Without(old(lists)[k], id)
    {
      var todo := lists.Keys;
      while todo != {}
        invariant lists.Keys == old(lists).Keys && todo <= lists.Keys
        invariant forall k | k in lists :: lists[k] == if k in todo then old(lists)[k] else ServerModel.Without(old(lists)[k], id)
        decreases todo
      {
        var k :| k in todo;
        var left := DropId(lists[k], id);
        lists := lists[k := left];
        todo := todo - {k};
      }
    }

    /** HASH_ITER over one list, deleting the entries that carry the id. */
    method DropId(list: seq<ClientId>, id: ClientId) returns (left: seq<ClientId>)
      ensures left == ServerModel.Without(list, id)
    {
      left := list;
      ghost var done, rest := [], list;
      var i := 0;
      while i < |left|
        invariant i == |done| && left == done + rest
        invariant done + ServerModel.Without(rest, id) == ServerModel.Without(list, id)
        decreases |rest|
      {
        assert left[i] == rest[0] && left[..i] == done && left[i + 1..] == rest[1..];
        if left[i] == id {
          left := left[..i] + left[i + 1..];
        } else {
          done := done + [left[i]];
          i := i + 1;
        }
        rest := rest[1..];
      }
    }

    /** Lines 447 to 457: the work of a client that has left clients_map goes to others. The
        loop ends because nothing is pushed back onto the queue it pops. */
    method Redelegate(client: Client, compilerOf: SolutionId -> Compiler)
      requires Valid() && client !in clients.Values
      modifies this`failed, clients.Values, client
      ensures clients == old(clients) && lists == old(lists) && client.queue == [] && client.checking == None
      ensures View() == PushAll(old(View()), old(WorkOf(Load(client.queue, client.checking))), compilerOf)
    {
      hide PushAll, Push, Choose;
      ghost var work := WorkOf(Load(client.queue, client.checking));
      if client.checking.Some? {
        var x := client.checking.value;
        PushAllCons(View(), x, client.queue, compilerOf);
        var _ := PushSolution(x, compilerOf(x));
        client.checking := None;
      } else {
        assert work == client.queue;
      }
      while client.queue != []
        invariant clients == old(clients) && lists == old(lists) && client.checking == None
        invariant PushAll(View(), client.queue, compilerOf) == PushAll(old(View()), work, compilerOf)
        decreases |client.queue|
      {
        RedelegateNext(client, compilerOf);
      }
      PushAllNil(View(), client.queue, compilerOf);
    }

    /** One round of that loop. */
    method RedelegateNext(client: Client, compilerOf: SolutionId -> Compiler)
      requires Valid() && client !in clients.Values && client.queue != []
      modifies this`failed, clients.Values, client
      ensures clients == old(clients) && lists == old(lists)
      ensures client.queue == old(client.queue)[1..] && client.checking == old(client.checking)
      ensures PushAll(View(), client.queue, compilerOf) == PushAll(old(View()), old(client.queue), compilerOf)
    {
      hide PushAll, Push, Choose;
      var x := client.queue[0];
      PushAllCons(View(), x, client.queue[1..], compilerOf);
      assert client.queue == [x] + client.queue[1..];
      client.queue := client.queue[1..];
      var _ := PushSolution(x, compilerOf(x));
    }

    /** remove_client */
    method RemoveClient(id: ClientId, compilerOf: SolutionId -> Compiler)
      requires Valid()
      modifies this, clients.Values
      ensures Valid() && View() == Remove(old(View()), id, compilerOf)
      ensures clients == old(clients) - {id}
      ensures lastClientId == old(lastClientId) - if id in old(clients) then 1 else 0
    {
      hide PushAll;
      if id !in clients { return; }
      var client := clients[id];
      ForgetId(id);
      assert forall a | a in clients && clients[a] == client :: a == id;
      clients := clients - {id};
      lastClientId := lastClientId - 1;
      assert View() == Forget(old(View()), id);
      Redelegate(client, compilerOf);
    }
  }

  lemma PushAllCons(net: Net, x: SolutionId, work: seq<SolutionId>, compilerOf: SolutionId -> Compiler)
    ensures PushAll(net, [x] + work, compilerOf) == PushAll(Push(net, x, compilerOf(x)), work, compilerOf)
  {
    assert ([x] + work)[1..] == work;
  }

  lemma PushAllNil(net: Net, work: seq<SolutionId>, compilerOf: SolutionId -> Compiler)
    requires work == []
    ensures PushAll(net, work, compilerOf) == net
  {
  }
}
