/** The ids of clients_map and last_client_id in the dispatcher are those of ClientIds, so its results
    hold of every run. */
module ServerIds {
  import opened Options
  import opened ServerModel
  import opened ServerLocks
  import ClientIds

  function IdsOf(s: State): ClientIds.Ids { ClientIds.Ids(s.clients.Keys, s.lastId) }

  /** A client joins, or leaves, at this step. */
  function OpOf(s: State, l: Label): Option<ClientIds.Op> {
    if !l.Act? || l.t !in s.threads then None
    else if s.threads[l.t].Entering? then Some(ClientIds.Join)
    else if s.threads[l.t] == Running(RemClients) then Some(ClientIds.Leave(Me(s, l.t).id))
    else None
  }

  lemma JoinsAndLeaves(s: State, t: Tid, c: Choice)
    requires t in s.threads && Wants(t, s.threads[t]).None?
    ensures var e := Decide(s, t, s.threads[t], c).1;
            (e.AddClient? <==> s.threads[t].Entering?) && (e.DropClient? <==> s.threads[t] == Running(RemClients))
  {
    match s.threads[t]
    case Entering(_, _) =>
    case Running(_) =>
    case Removing(_) =>
    case Poll(_) =>
    case Push(_, _, _, stage) =>
  }

  /** Every step is a join of a fresh id, a leave of a live one, or neither. */
  lemma StepIds(s: State, l: Label)
    requires Inv(s) && Enabled(s, l)
    ensures var op, ids, ids' := OpOf(s, l), IdsOf(s), IdsOf(Next(s, l));
            && (op.None? ==> ids' == ids)
            && (op.Some? ==> ClientIds.Legal(ids, op.value) && ids' == ClientIds.Apply(ids, op.value))
            && (op == Some(ClientIds.Join) ==> ClientIds.Fresh(ids))
  {
    hide IndexOk, MutexOk, TargetsOk, ThreadsOk, Decide, Got, Perform, Held, Wants;
    match l
    case Act(t, c) =>
      ThreadsGive(s, t);
      JoinsAndLeaves(s, t, c);
      EffectIds(s, t, Decide(s, t, s.threads[t], c).1, Decide(s, t, s.threads[t], c).0);
    case Submit(_, _) =>
    case Accept(_, _) =>
    case Acquire(_) =>
  }

  lemma EffectIds(s: State, t: Tid, e: Effect, pc: PC)
    ensures var ids, ids' := IdsOf(s), IdsOf(Perform(s, t, e, pc));
            && (e.AddClient? ==> ids' == ClientIds.Apply(ids, ClientIds.Join))
            && (e.DropClient? ==> ids' == ClientIds.Apply(ids, ClientIds.Leave(Me(s, t).id)))
            && (!e.AddClient? && !e.DropClient? ==> ids' == ids)
  {
    hide ObjsAfter, StatusAfter, UndoAfter, LocAfter, ListsAfter, ClientsAfter;
    KeysAfter(s, t, e);
  }

  lemma KeysAfter(s: State, t: Tid, e: Effect)
    ensures var keys, keys' := s.clients.Keys, ClientsAfter(s, t, e).Keys;
            keys' == if e.AddClient? then keys + {s.lastId} else if e.DropClient? then keys - {Me(s, t).id} else keys
  {
    hide Me;
  }

  /** The joins and leaves of a run, as a run of ClientIds. */
  lemma {:induction false} RunIds(states: seq<State>, labels: seq<Label>, n: nat) returns (ids: seq<ClientIds.Ids>, ops: seq<ClientIds.Op>)
    requires Run(states, labels) && n < |states|
    ensures ClientIds.IsRun(ids, ops) && ids[|ops|] == IdsOf(states[n])
    ensures forall j | 0 <= j < |ops| :: ops[j].Join? ==> ClientIds.Fresh(ids[j])
  {
    hide Inv, Enabled, Next, OpOf, ClientIds.Legal, ClientIds.Apply, ClientIds.Fresh;
    if n == 0 {
      ids, ops := [IdsOf(states[0])], [];
      assert IdsOf(Init()) == ClientIds.START;
    } else {
      ids, ops := RunIds(states, labels, n - 1);
      var s, l := states[n - 1], labels[n - 1];
      assert Enabled(s, l) && states[n - 1 + 1] == Next(s, l);
      RunInv(states, labels, n - 1);
      StepIds(s, l);
      if OpOf(s, l).Some? {
        var ids', ops' := ids + [IdsOf(states[n])], ops + [OpOf(s, l).value];
        forall i | 0 <= i < |ops'|
          ensures ClientIds.Legal(ids'[i], ops'[i]) && ids'[i + 1] == ClientIds.Apply(ids'[i], ops'[i])
          ensures ops'[i].Join? ==> ClientIds.Fresh(ids'[i])
        {
          if i < |ops| { assert ClientIds.Legal(ids[i], ops[i]) && ids[i + 1] == ClientIds.Apply(ids[i], ops[i]); }
        }
        ids, ops := ids', ops';
      }
    }
  }

  /** In every state of every run last_client_id is one more than the number of clients in clients_map. */
  lemma LastIdCountsClients(states: seq<State>, labels: seq<Label>, n: nat)
    requires Run(states, labels) && n < |states|
    ensures states[n].lastId == |states[n].clients| + 1
  {
    hide Run;
    var ids, ops := RunIds(states, labels, n);
    ClientIds.LastCountsClients(ids, ops, |ops|);
    assert |states[n].clients.Keys| == |states[n].clients|;
  }
}
