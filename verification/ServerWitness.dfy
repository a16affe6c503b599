/** Runs of the dispatcher that reach the states one would rather not see: each way to drop a solution
    whose result is not stored, a result taken back, a row handed out while it is new, and a solution
    in two places. */
module ServerWitness {
  import opened Options
  import opened ServerModel
  import opened ServerRows
  import opened ServerOwnership
  import opened ServerConservation

  ghost predicate Reachable(s: State) {
    exists states, labels :: Run(states, labels) && states[|labels|] == s
  }

  lemma Start() returns (s: State)
    ensures s == Init() && Reachable(s)
  {
    s := Init();
    assert Run([s], []) && [s][0] == s;
  }

  lemma Step(s: State, l: Label) returns (s': State)
    requires Reachable(s) && Enabled(s, l)
    ensures s' == Next(s, l) && Reachable(s')
  {
    hide Enabled, Next;
    s' := Next(s, l);
    var states, labels :| Run(states, labels) && states[|labels|] == s;
    var states', labels' := states + [s'], labels + [l];
    forall i {:trigger labels'[i]} | 0 <= i < |labels'|
      ensures Enabled(states'[i], labels'[i]) && states'[i + 1] == Next(states'[i], labels'[i])
    {
      if i < |labels| { assert Enabled(states[i], labels[i]) && states[i + 1] == Next(states[i], labels[i]); }
    }
    assert Run(states', labels');
  }

  /** No thread but t holds a mutex, the poller's on the database left aside. */
  ghost predicate CalmBut(s: State, t: Tid) {
    forall u | u in s.threads && u != t :: Held(u, s.threads[u]) <= {Db}
  }

  lemma Lock(s: State, t: Tid, pc: PC) returns (s': State)
    requires Reachable(s) && CalmBut(s, t) && t in s.threads && s.threads[t] == pc
    requires Wants(t, pc).Some? && Wants(t, pc).value !in Held(t, pc)
    requires Wants(t, pc).value == Db ==> forall u | u in s.threads :: Db !in Held(u, s.threads[u])
    ensures s' == Goto(s, t, Got(s, pc)) && Reachable(s') && CalmBut(s', t)
  {
    hide Reachable, Held, Wants, Got;
    s' := Step(s, Acquire(t));
  }

  lemma Run1(s: State, t: Tid, c: Choice, pc: PC, e: Effect) returns (s': State)
    requires Reachable(s) && CalmBut(s, t) && t in s.threads && Wants(t, s.threads[t]).None? && s.threads[t] != Removing(Done)
    requires ChoiceFits(s, s.threads[t], c) && Decide(s, t, s.threads[t], c) == (pc, e)
    ensures s' == Perform(s, t, e, pc) && Reachable(s') && CalmBut(s', t)
  {
    hide Reachable, Held, Wants, Decide, ChoiceFits, StatusAfter, UndoAfter, LocAfter, ObjsAfter, ClientsAfter, ListsAfter;
    s' := Step(s, Act(t, c));
  }

  /** A step that only moves the thread. */
  lemma Move(s: State, t: Tid, c: Choice, pc: PC) returns (s': State)
    requires Reachable(s) && CalmBut(s, t) && t in s.threads && Wants(t, s.threads[t]).None? && s.threads[t] != Removing(Done)
    requires ChoiceFits(s, s.threads[t], c) && Decide(s, t, s.threads[t], c) == (pc, Nothing)
    ensures s' == Goto(s, t, pc) && Reachable(s') && CalmBut(s', t)
  {
    hide Reachable, CalmBut, Wants, Decide, ChoiceFits;
    s' := Run1(s, t, c, pc, Nothing);
  }

  lemma CalmGoto(s: State, t: Tid, pc: PC)
    requires CalmBut(s, t)
    ensures CalmBut(Goto(s, t, pc), t)
  {
  }

  /** Whoever holds nothing may be left for another thread. */
  lemma Switch(s: State, t: Tid, u: Tid)
    requires CalmBut(s, t) && (t in s.threads ==> Held(t, s.threads[t]) <= {Db})
    ensures CalmBut(s, u)
  {
  }

  // ---- Registration ----

  function Added(s: State, t: Tid, pc: PC): State {
    s.(objs := s.objs[t := Client(s.lastId, [], None)], clients := s.clients[s.lastId := t], lastId := s.lastId + 1,
       threads := s.threads[t := pc])
  }

  function Listed(s: State, t: Tid, k: Compiler, pc: PC): State {
    s.(lists := s.lists[k := ListFor(s, k) + [Me(s, t).id]], threads := s.threads[t := pc])
  }

  /** A client connects, listing compiler k, and registers. */
  function Entered(s: State, t: Tid, k: Compiler): State {
    Listed(Added(s, t, Running(Idle)), t, k, Running(Idle))
  }

  lemma EnterLock(s: State, t: Tid, k: Compiler)
    requires Reachable(s) && CalmBut(s, t) && t !in s.threads
    ensures var s' := Goto(s, t, Entering([k], true)); Reachable(s') && CalmBut(s', t)
  {
    hide Reachable, CalmBut;
    var s1 := Step(s, Accept(t, [k]));
    CalmGoto(s, t, Entering([k], false));
    s1 := Lock(s1, t, Entering([k], false));
    assert s1 == Goto(s, t, Entering([k], true));
  }

  lemma EnterMap(s: State, t: Tid, k: Compiler)
    requires Reachable(s) && CalmBut(s, t) && t !in s.threads && s.lastId !in s.clients
    ensures Reachable(Added(s, t, Running(RegWantCompilers([k])))) && CalmBut(Added(s, t, Running(RegWantCompilers([k]))), t)
  {
    hide Reachable, CalmBut;
    EnterLock(s, t, k);
    var s1 := Run1(Goto(s, t, Entering([k], true)), t, Go, Running(RegWantCompilers([k])), AddClient);
    assert s1 == Added(s, t, Running(RegWantCompilers([k])));
  }

  lemma EnterList(s: State, t: Tid, k: Compiler)
    requires Reachable(s) && CalmBut(s, t) && t in s.threads && s.threads[t] == Running(RegWantCompilers([k]))
    ensures Reachable(Listed(s, t, k, Running(Idle))) && CalmBut(Listed(s, t, k, Running(Idle)), t)
  {
    hide Reachable, CalmBut;
    var s1 := Lock(s, t, Running(RegWantCompilers([k])));
    assert [k][1..] == [];
    s1 := Run1(s1, t, Go, Running(RegCompilers([])), Enlist(k));
    s1 := Move(s1, t, Go, Running(Idle));
    assert s1 == Listed(s, t, k, Running(Idle));
  }

  lemma Enter(s: State, t: Tid, k: Compiler)
    requires Reachable(s) && CalmBut(s, t) && t !in s.threads && s.lastId !in s.clients
    ensures Reachable(Entered(s, t, k)) && CalmBut(Entered(s, t, k), t)
  {
    hide Reachable, CalmBut;
    EnterMap(s, t, k);
    EnterList(Added(s, t, Running(RegWantCompilers([k]))), t, k);
    assert Listed(Added(s, t, Running(RegWantCompilers([k]))), t, k, Running(Idle)) == Entered(s, t, k);
  }

  // ---- Polling and pushing ----

  /** The poller has selected row x alone and begun its transaction. */
  function Began(s: State, x: SolutionId): State {
    s.(undo := Some(map[]), threads := s.threads[POLLER := Poll(Marking([x], 0))])
  }

  function MarkedOne(s: State, x: SolutionId): State {
    s.(status := s.status[x := 1], undo := Some(map[x := 0]), threads := s.threads[POLLER := Poll(Marking([x], 1))])
  }

  function ExtractedOne(s: State, x: SolutionId): State {
    s.(status := s.status[x := 1], undo := None, loc := s.loc[x := Pending], threads := s.threads[POLLER := Poll(Batch([x]))])
  }

  ghost predicate DbFree(s: State) { forall u | u in s.threads :: Db !in Held(u, s.threads[u]) }

  lemma DbFreeGoto(s: State, t: Tid, pc: PC)
    requires DbFree(s) && Db !in Held(t, pc)
    ensures DbFree(Goto(s, t, pc))
  {
  }

  lemma SelectOne(s: State, x: SolutionId)
    requires Reachable(s) && CalmBut(s, POLLER) && POLLER in s.threads && s.threads[POLLER] == Poll(PollIdle) && DbFree(s)
    requires FreshRows(s, [x])
    ensures var s' := Goto(s, POLLER, Poll(Selected([x]))); Reachable(s') && CalmBut(s', POLLER)
  {
    hide Reachable, CalmBut, FreshRows;
    var s1 := Move(s, POLLER, Go, Poll(PollWant));
    DbFreeGoto(s, POLLER, Poll(PollWant));
    s1 := Lock(s1, POLLER, Poll(PollWant));
    assert s1 == Goto(s, POLLER, Poll(PollHold));
    FreshRowsGoto(s, [x], Poll(PollHold));
    s1 := Move(s1, POLLER, Extract([x]), Poll(Selected([x])));
    assert s1 == Goto(s, POLLER, Poll(Selected([x])));
  }

  lemma BeginOne(s: State, x: SolutionId)
    requires Reachable(s) && CalmBut(s, POLLER) && POLLER in s.threads && s.threads[POLLER] == Poll(PollIdle) && DbFree(s)
    requires FreshRows(s, [x])
    ensures Reachable(Began(s, x)) && CalmBut(Began(s, x), POLLER)
  {
    hide Reachable, CalmBut, FreshRows;
    SelectOne(s, x);
    var s1 := Run1(Goto(s, POLLER, Poll(Selected([x]))), POLLER, Go, Poll(Marking([x], 0)), BeginTx);
    Same(s1, Began(s, x));
  }

  lemma MarkEffect(s: State, x: SolutionId)
    requires s.undo == Some(map[]) && x in s.status && s.status[x] == 0
    ensures var e := MarkRow(x);
            && StatusAfter(s, e) == s.status[x := 1] && UndoAfter(s, e) == Some(map[x := 0]) && ObjsAfter(s, POLLER, e) == s.objs
            && ClientsAfter(s, POLLER, e) == s.clients && ListsAfter(s, POLLER, e) == s.lists && LocAfter(s, POLLER, e) == s.loc
  {
  }

  lemma MarkOne(s: State, x: SolutionId)
    requires Reachable(Began(s, x)) && CalmBut(Began(s, x), POLLER) && x in s.status && s.status[x] == 0
    ensures Reachable(MarkedOne(s, x)) && CalmBut(MarkedOne(s, x), POLLER)
  {
    hide Reachable, CalmBut, StatusAfter, UndoAfter, ObjsAfter, ClientsAfter, ListsAfter, LocAfter;
    var s1 := Run1(Began(s, x), POLLER, Go, Poll(Marking([x], 1)), MarkRow(x));
    MarkEffect(Began(s, x), x);
    Same(s1, MarkedOne(s, x));
  }

  lemma ExtractOne(s: State, x: SolutionId)
    requires Reachable(s) && CalmBut(s, POLLER) && POLLER in s.threads && s.threads[POLLER] == Poll(PollIdle) && DbFree(s)
    requires FreshRows(s, [x])
    ensures Reachable(ExtractedOne(s, x)) && CalmBut(ExtractedOne(s, x), POLLER)
  {
    hide Reachable, CalmBut, FreshRows, Began, MarkedOne, ExtractedOne;
    FreshIsNew(s, x);
    BeginOne(s, x);
    MarkOne(s, x);
    CommitOne(s, x);
  }

  lemma FreshIsNew(s: State, x: SolutionId)
    requires FreshRows(s, [x])
    ensures x in s.status && s.status[x] == 0
  {
    assert x in [x];
  }

  lemma CommitEffect(s: State, x: SolutionId)
    ensures var e := CommitRows([x]);
            && StatusAfter(s, e) == s.status && UndoAfter(s, e) == None && ObjsAfter(s, POLLER, e) == s.objs
            && ClientsAfter(s, POLLER, e) == s.clients && ListsAfter(s, POLLER, e) == s.lists
            && LocAfter(s, POLLER, e) == s.loc[x := Pending]
  {
  }

  lemma CommitOne(s: State, x: SolutionId)
    requires Reachable(MarkedOne(s, x)) && CalmBut(MarkedOne(s, x), POLLER)
    ensures Reachable(ExtractedOne(s, x)) && CalmBut(ExtractedOne(s, x), POLLER)
  {
    hide Reachable, CalmBut, StatusAfter, UndoAfter, ObjsAfter, ClientsAfter, ListsAfter, LocAfter;
    var s1 := Run1(MarkedOne(s, x), POLLER, Go, Poll(Batch([x])), CommitRows([x]));
    CommitEffect(MarkedOne(s, x), x);
    Same(s1, ExtractedOne(s, x));
  }

  lemma Same(a: State, b: State)
    requires a.compilerOf == b.compilerOf && a.status == b.status && a.undo == b.undo && a.objs == b.objs && a.clients == b.clients
    requires a.lists == b.lists && a.lastId == b.lastId && a.threads == b.threads && a.removedAt == b.removedAt && a.loc == b.loc
    ensures a == b
  {
  }

  lemma FreshRowsGoto(s: State, ids: seq<SolutionId>, pc: PC)
    requires FreshRows(s, ids)
    ensures FreshRows(Goto(s, POLLER, pc), ids)
  {
  }

  /** Where the thread stood before matters only to Freed, and so only to deliveries. */
  lemma PerformGoto(s: State, t: Tid, e: Effect, pc0: PC, pc: PC)
    requires e.TakeNext? || e.Delist? || e.DropClient?
    ensures Perform(Goto(s, t, pc0), t, e, pc) == Perform(s, t, e, pc)
  {
    hide StatusAfter, UndoAfter, LocAfter, ObjsAfter, ClientsAfter, ListsAfter;
    LocGoto(s, t, e, pc0);
    ObjsGoto(s, t, e, pc0);
    IndexGoto(s, t, e, pc0);
  }

  lemma LocGoto(s: State, t: Tid, e: Effect, pc0: PC)
    requires e.TakeNext? || e.Delist? || e.DropClient?
    ensures LocAfter(Goto(s, t, pc0), t, e) == LocAfter(s, t, e) && StatusAfter(Goto(s, t, pc0), e) == StatusAfter(s, e)
    ensures UndoAfter(Goto(s, t, pc0), e) == UndoAfter(s, e)
  {
  }

  lemma ObjsGoto(s: State, t: Tid, e: Effect, pc0: PC)
    requires e.TakeNext? || e.Delist? || e.DropClient?
    ensures ObjsAfter(Goto(s, t, pc0), t, e) == ObjsAfter(s, t, e)
  {
  }

  lemma IndexGoto(s: State, t: Tid, e: Effect, pc0: PC)
    ensures ClientsAfter(Goto(s, t, pc0), t, e) == ClientsAfter(s, t, e)
    ensures ListsAfter(Goto(s, t, pc0), t, e) == ListsAfter(s, t, e)
  {
  }

  lemma TakeFirst(s: State, x: SolutionId, rest: seq<SolutionId>)
    requires Reachable(s) && CalmBut(s, POLLER) && POLLER in s.threads && s.threads[POLLER] == Poll(Batch([x] + rest))
    requires x in s.compilerOf
    ensures var s' := Perform(s, POLLER, TakePending(x), Push(ByPoller(rest), x, s.compilerOf[x], Find));
            Reachable(s') && CalmBut(s', POLLER)
  {
    hide Reachable, CalmBut, StatusAfter, UndoAfter, LocAfter, ObjsAfter, ClientsAfter, ListsAfter;
    assert ([x] + rest)[1..] == rest;
    var s' := Run1(s, POLLER, Go, Push(ByPoller(rest), x, s.compilerOf[x], Find), TakePending(x));
  }

  /** push_solution up to its wait for the chosen client: the first listed one if it is idle, or
      the only one. */
  lemma ChooseFirst(s: State, t: Tid, caller: Caller, x: SolutionId, k: Compiler, o: Tid)
    requires Reachable(s) && CalmBut(s, t) && t in s.threads && s.threads[t] == Push(caller, x, k, Find)
    requires k in s.lists && s.lists[k] != [] && s.lists[k][0] in s.clients && s.clients[s.lists[k][0]] == o && o != t
    requires !Loaded(s, o) || |s.lists[k]| == 1
    ensures var s' := Goto(s, t, Push(caller, x, k, WantChosen(o))); Reachable(s') && CalmBut(s', t)
  {
    hide Reachable, CalmBut;
    var s1 := Move(s, t, Go, Push(caller, x, k, WantClients));
    s1 := Lock(s1, t, Push(caller, x, k, WantClients));
    s1 := Lock(s1, t, Push(caller, x, k, WantList));
    assert s1 == Goto(s, t, Push(caller, x, k, Scan(0, None)));
    ScanFirst(s, s1, t, caller, x, k, o);
  }

  lemma ScanFirst(s: State, s0: State, t: Tid, caller: Caller, x: SolutionId, k: Compiler, o: Tid)
    requires s0 == Goto(s, t, Push(caller, x, k, Scan(0, None))) && Reachable(s0) && CalmBut(s0, t)
    requires k in s.lists && s.lists[k] != [] && s.lists[k][0] in s.clients && s.clients[s.lists[k][0]] == o && o != t
    requires !Loaded(s, o) || |s.lists[k]| == 1
    ensures var s' := Goto(s, t, Push(caller, x, k, WantChosen(o))); Reachable(s') && CalmBut(s', t)
  {
    hide Reachable, CalmBut;
    var s1 := Move(s0, t, Go, Push(caller, x, k, WantCur(o, 0, None)));
    s1 := Lock(s1, t, Push(caller, x, k, WantCur(o, 0, None)));
    assert s1 == Goto(s, t, Push(caller, x, k, HoldCur(o, 0, None)));
    LookAtFirst(s, s1, t, caller, x, k, o);
  }

  lemma LookAtFirst(s: State, s0: State, t: Tid, caller: Caller, x: SolutionId, k: Compiler, o: Tid)
    requires s0 == Goto(s, t, Push(caller, x, k, HoldCur(o, 0, None))) && Reachable(s0) && CalmBut(s0, t)
    requires !Loaded(s, o) || (k in s.lists && |s.lists[k]| == 1)
    ensures var s' := Goto(s, t, Push(caller, x, k, WantChosen(o))); Reachable(s') && CalmBut(s', t)
  {
    hide Reachable, CalmBut;
    var s1 := s0;
    if Loaded(s, o) { s1 := Move(s1, t, Go, Push(caller, x, k, Scan(1, Some(o)))); }
    s1 := Move(s1, t, Go, Push(caller, x, k, WantChosen(o)));
    assert s1 == Goto(s, t, Push(caller, x, k, WantChosen(o)));
  }

  lemma DeliverNow(s: State, t: Tid, caller: Caller, x: SolutionId, k: Compiler, o: Tid)
    requires Reachable(s) && CalmBut(s, t) && t in s.threads && s.threads[t] == Push(caller, x, k, WantChosen(o)) && o != t
    ensures var s' := Perform(s, t, Deliver(x, o), Return(caller)); Reachable(s') && CalmBut(s', t)
  {
    hide Reachable, CalmBut, StatusAfter, ListsAfter, ClientsAfter;
    var s1 := Lock(s, t, Push(caller, x, k, WantChosen(o)));
    s1 := Run1(s1, t, Go, Return(caller), Deliver(x, o));
    assert s1 == Perform(s, t, Deliver(x, o), Return(caller)) by { DeliverGoto(s, t, x, o, Push(caller, x, k, HoldChosen(o)), Return(caller)); }
  }

  lemma DeliverGoto(s: State, t: Tid, x: SolutionId, o: Tid, pc0: PC, pc: PC)
    requires o != t
    ensures Perform(Goto(s, t, pc0), t, Deliver(x, o), pc) == Perform(s, t, Deliver(x, o), pc)
  {
  }

  // ---- The client's own steps ----

  lemma WantNext(s: State, t: Tid)
    requires Reachable(s) && CalmBut(s, t) && t in s.threads && s.threads[t] == Running(Idle)
    ensures Reachable(Goto(s, t, Running(ProcHold))) && CalmBut(Goto(s, t, Running(ProcHold)), t)
  {
    hide Reachable, CalmBut;
    var s1 := Move(s, t, Process, Running(ProcWant));
    s1 := Lock(s1, t, Running(ProcWant));
    assert s1 == Goto(s, t, Running(ProcHold));
  }

  lemma ProcessNext(s: State, t: Tid)
    requires Reachable(s) && CalmBut(s, t) && t in s.threads && s.threads[t] == Running(Idle) && Me(s, t).queue != []
    ensures var s' := Perform(s, t, TakeNext, Running(Idle)); Reachable(s') && CalmBut(s', t)
  {
    hide Reachable, CalmBut, StatusAfter, UndoAfter, LocAfter, ObjsAfter, ClientsAfter, ListsAfter;
    WantNext(s, t);
    var s1 := Run1(Goto(s, t, Running(ProcHold)), t, Go, Running(Idle), TakeNext);
    PerformGoto(s, t, TakeNext, Running(ProcHold), Running(Idle));
  }

  /** A client that listed compiler k alone leaves, as far as waiting for its own mutex. */
  function Left(s: State, t: Tid, k: Compiler): State {
    s.(clients := s.clients - {Me(s, t).id}, lists := s.lists[k := Without(ListFor(s, k), Me(s, t).id)],
       lastId := s.lastId - 1, threads := s.threads[t := Removing(DrainWant)], removedAt := s.removedAt[t := |s.removedAt|])
  }

  lemma LeaveCompilers(s: State, t: Tid, k: Compiler)
    requires Reachable(s) && CalmBut(s, t) && t in s.threads && s.threads[t] == Running(Idle)
    requires Me(s, t).id in s.clients && s.lists.Keys == {k}
    ensures var s' := Goto(s, t, Running(RemCompilers({k}))); Reachable(s') && CalmBut(s', t)
  {
    hide Reachable, CalmBut;
    var s1 := Move(s, t, Leave, Running(RemWantCompilers));
    s1 := Lock(s1, t, Running(RemWantCompilers));
    assert s1 == Goto(s, t, Running(RemCompilers({k})));
  }

  lemma LeaveList(s: State, t: Tid, k: Compiler)
    requires Reachable(s) && CalmBut(s, t) && t in s.threads && s.threads[t] == Running(Idle)
    requires Me(s, t).id in s.clients && s.lists.Keys == {k}
    ensures var s' := Perform(s, t, Delist(k), Running(RemCompilers({}))); Reachable(s') && CalmBut(s', t)
  {
    hide Reachable, CalmBut, Without, StatusAfter, UndoAfter, LocAfter, ObjsAfter, ClientsAfter, ListsAfter;
    LeaveCompilers(s, t, k);
    var s1 := Move(Goto(s, t, Running(RemCompilers({k}))), t, NextList(k), Running(RemWantList(k, {k})));
    s1 := Lock(s1, t, Running(RemWantList(k, {k})));
    assert s1 == Goto(s, t, Running(RemList(k, {k}))) && {k} - {k} == {};
    s1 := Run1(s1, t, Go, Running(RemCompilers({})), Delist(k));
    PerformGoto(s, t, Delist(k), Running(RemList(k, {k})), Running(RemCompilers({})));
  }

  lemma LeaveMap(s: State, t: Tid)
    requires Reachable(s) && CalmBut(s, t) && t in s.threads && s.threads[t] == Running(RemCompilers({}))
    ensures var s' := Perform(s, t, DropClient, Removing(DrainWant)); Reachable(s') && CalmBut(s', t)
  {
    hide Reachable, CalmBut, StatusAfter, UndoAfter, LocAfter, ObjsAfter, ClientsAfter, ListsAfter;
    var s1 := Move(s, t, Go, Running(RemWantClients));
    s1 := Lock(s1, t, Running(RemWantClients));
    assert s1 == Goto(s, t, Running(RemClients));
    s1 := Run1(s1, t, Go, Removing(DrainWant), DropClient);
    PerformGoto(s, t, DropClient, Running(RemClients), Removing(DrainWant));
  }

  lemma Leaves(s: State, t: Tid, k: Compiler)
    requires Reachable(s) && CalmBut(s, t) && t in s.threads && s.threads[t] == Running(Idle)
    requires Me(s, t).id in s.clients && s.lists.Keys == {k}
    ensures Reachable(Left(s, t, k)) && CalmBut(Left(s, t, k), t)
  {
    hide Reachable, CalmBut, Without;
    LeaveList(s, t, k);
    var s1 := Perform(s, t, Delist(k), Running(RemCompilers({})));
    LeaveMap(s1, t);
    assert Perform(s1, t, DropClient, Removing(DrainWant)) == Left(s, t, k);
  }

  // ---- A client with work ----

  /** Nobody holds a mutex. */
  ghost predicate Calm(s: State) { forall u | u in s.threads :: Held(u, s.threads[u]) == {} }

  lemma CalmIsCalmBut(s: State, t: Tid)
    requires Calm(s)
    ensures CalmBut(s, t) && DbFree(s)
  {
  }

  /** Row 100 for compiler 7, submitted and not extracted. */
  const SUBMITTED: State :=
    State(map[100 := 7], map[100 := 0], None, map[], map[], map[], 1, map[POLLER := Poll(PollIdle)], map[], map[])

  /** And client 1, which listed compiler 7. */
  function Solo(c: Client, poller: PC, status: nat, loc: map<SolutionId, Loc>): State {
    State(map[100 := 7], map[100 := status], None, map[1 := c], map[1 := 1], map[7 := [1]], 2,
          map[POLLER := poller, 1 := Running(Idle)], map[], loc)
  }

  const WAITING: PC := Push(ByPoller([]), 100, 7, WantChosen(1))
  const REGISTERED: State := Solo(Client(1, [], None), Poll(PollIdle), 0, map[])
  const EXTRACTED: State := Solo(Client(1, [], None), Poll(Batch([100])), 1, map[100 := Pending])
  const PUSHING: State := Solo(Client(1, [], None), Push(ByPoller([]), 100, 7, Find), 1, map[100 := Hand(POLLER)])
  const CHOSEN: State := Solo(Client(1, [], None), WAITING, 1, map[100 := Hand(POLLER)])
  const QUEUED: State := Solo(Client(1, [100], None), Poll(Batch([])), 1, map[100 := Queue(1)])
  const TAKEN: State := Solo(Client(1, [], Some(100)), Poll(Batch([])), 1, map[100 := Slot(1)])
  const CHECKED: State := Solo(Client(1, [], Some(100)), Poll(PollIdle), 1, map[100 := Slot(1)])

  lemma ReachSubmitted()
    ensures Reachable(SUBMITTED) && Calm(SUBMITTED)
  {
    hide Reachable;
    var s := Start();
    s := Step(s, Submit(100, 7));
    Same(s, SUBMITTED);
  }

  lemma RegisteredIs()
    ensures Entered(SUBMITTED, 1, 7) == REGISTERED
  {
    assert ListFor(Added(SUBMITTED, 1, Running(Idle)), 7) + [1] == [1];
    Same(Entered(SUBMITTED, 1, 7), REGISTERED);
  }

  lemma ReachRegistered()
    ensures Reachable(REGISTERED) && Calm(REGISTERED)
  {
    hide Reachable, Entered;
    ReachSubmitted();
    CalmIsCalmBut(SUBMITTED, 1);
    Enter(SUBMITTED, 1, 7);
    RegisteredIs();
  }

  lemma FreshOne(s: State, x: SolutionId)
    requires x in s.status && s.status[x] == 0 && forall y | y in s.status && s.status[y] == 0 :: y == x
    ensures FreshRows(s, [x])
  {
  }

  lemma ReachPushing()
    ensures Reachable(PUSHING) && Calm(PUSHING)
  {
    hide Reachable, CalmBut, FreshRows, ExtractedOne, Perform;
    ReachRegistered();
    CalmIsCalmBut(REGISTERED, POLLER);
    FreshOne(REGISTERED, 100);
    ExtractOne(REGISTERED, 100);
    ExtractedIs();
    PushingIs();
    assert [100] + [] == [100];
    TakeFirst(EXTRACTED, 100, []);
  }

  lemma ExtractedIs()
    ensures ExtractedOne(REGISTERED, 100) == EXTRACTED
  {
    Same(ExtractedOne(REGISTERED, 100), EXTRACTED);
  }

  lemma PushingIs()
    ensures Perform(EXTRACTED, POLLER, TakePending(100), Push(ByPoller([]), 100, 7, Find)) == PUSHING
  {
    hide StatusAfter, UndoAfter, ObjsAfter, ClientsAfter, ListsAfter, LocAfter;
    TakeEffect(EXTRACTED, 100);
    Same(Perform(EXTRACTED, POLLER, TakePending(100), Push(ByPoller([]), 100, 7, Find)), PUSHING);
  }

  lemma TakeEffect(s: State, x: SolutionId)
    ensures var e := TakePending(x);
            && StatusAfter(s, e) == s.status && UndoAfter(s, e) == s.undo && ObjsAfter(s, POLLER, e) == s.objs
            && ClientsAfter(s, POLLER, e) == s.clients && ListsAfter(s, POLLER, e) == s.lists
            && LocAfter(s, POLLER, e) == s.loc[x := Hand(POLLER)]
  {
  }

  lemma ReachChosen()
    ensures Reachable(CHOSEN) && Calm(CHOSEN)
  {
    hide Reachable, CalmBut;
    ReachPushing();
    CalmIsCalmBut(PUSHING, POLLER);
    ChooseFirst(PUSHING, POLLER, ByPoller([]), 100, 7, 1);
    Same(Goto(PUSHING, POLLER, WAITING), CHOSEN);
  }

  lemma DeliverEffect(s: State, t: Tid, x: SolutionId, o: Tid)
    requires !Freed(s, o)
    ensures var e := Deliver(x, o);
            && StatusAfter(s, e) == s.status && UndoAfter(s, e) == s.undo
            && ClientsAfter(s, t, e) == s.clients && ListsAfter(s, t, e) == s.lists
            && ObjsAfter(s, t, e) == s.objs[o := s.objs[o].(queue := s.objs[o].queue + [x])]
            && LocAfter(s, t, e) == s.loc[x := Queue(o)]
  {
  }

  lemma QueuedIs()
    ensures Perform(CHOSEN, POLLER, Deliver(100, 1), Poll(Batch([]))) == QUEUED
  {
    hide StatusAfter, UndoAfter, ObjsAfter, ClientsAfter, ListsAfter, LocAfter;
    assert CHOSEN.objs[1].queue + [100] == [100];
    DeliverEffect(CHOSEN, POLLER, 100, 1);
    Same(Perform(CHOSEN, POLLER, Deliver(100, 1), Poll(Batch([]))), QUEUED);
  }

  lemma TakenIs()
    ensures Perform(QUEUED, 1, TakeNext, Running(Idle)) == TAKEN
  {
    hide StatusAfter, UndoAfter, ObjsAfter, ClientsAfter, ListsAfter, LocAfter;
    assert [100][1..] == [];
    NextEffect(QUEUED, 1);
    Same(Perform(QUEUED, 1, TakeNext, Running(Idle)), TAKEN);
  }

  lemma NextEffect(s: State, t: Tid)
    requires t in s.objs && s.objs[t].queue != [] && s.objs[t].checking.None?
    ensures var e, q := TakeNext, s.objs[t].queue;
            && StatusAfter(s, e) == s.status && UndoAfter(s, e) == s.undo
            && ClientsAfter(s, t, e) == s.clients && ListsAfter(s, t, e) == s.lists
            && ObjsAfter(s, t, e) == s.objs[t := Client(s.objs[t].id, q[1..], Some(q[0]))]
            && LocAfter(s, t, e) == s.loc[q[0] := Slot(t)]
  {
  }

  lemma ReachChecked()
    ensures Reachable(CHECKED) && Calm(CHECKED)
  {
    hide Reachable, CalmBut;
    ReachTaken();
    Switch(TAKEN, 1, POLLER);
    var s := Move(TAKEN, POLLER, Go, Poll(PollIdle));
    Same(s, CHECKED);
  }

  lemma ReachTaken()
    ensures Reachable(TAKEN) && CalmBut(TAKEN, 1)
  {
    hide Reachable, CalmBut, Perform;
    ReachChosen();
    CalmIsCalmBut(CHOSEN, POLLER);
    DeliverNow(CHOSEN, POLLER, ByPoller([]), 100, 7, 1);
    QueuedIs();
    assert Calm(QUEUED);
    CalmIsCalmBut(QUEUED, 1);
    ProcessNext(QUEUED, 1);
    TakenIs();
  }

  // ---- Five ways to go missing ----

  /** The step drops solution 100 while no result for it is stored. */
  ghost predicate Loses(s: State, l: Label, x: SolutionId) {
    Reachable(s) && Enabled(s, l) && Drops(s, l, x) && !IsPosted(Next(s, l), x)
  }

  lemma ReportUnknown(s: State, t: Tid, x: SolutionId, code: nat)
    requires Reachable(s) && CalmBut(s, t) && DbFree(s) && t in s.threads && s.threads[t] == Running(Idle) && code > 7
    ensures Reachable(Goto(s, t, Running(ClearHold)))
  {
    hide Reachable, CalmBut;
    var s1 := Move(s, t, Report(x, code), Running(PostWant(x, code)));
    DbFreeGoto(s, t, Running(PostWant(x, code)));
    s1 := Lock(s1, t, Running(PostWant(x, code)));
    s1 := Move(s1, t, Go, Running(ClearWant));
    s1 := Lock(s1, t, Running(ClearWant));
    assert s1 == Goto(s, t, Running(ClearHold));
  }

  /** The client reports a result with code 9: nothing is stored and the slot is cleared. */
  lemma UnknownCodeLoses() returns (s: State, l: Label)
    ensures Loses(s, l, 100) && 1 in s.threads && s.threads[1] == Running(ClearHold)
  {
    hide Reachable, CalmBut;
    ReachChecked();
    CalmIsCalmBut(CHECKED, 1);
    ReportUnknown(CHECKED, 1, 100, 9);
    s, l := Goto(CHECKED, 1, Running(ClearHold)), Act(1, Go);
  }

  /** A second row, 101, has been submitted. */
  function Pair(c: Client, poller: PC, status: nat, loc: map<SolutionId, Loc>): State {
    State(map[100 := 7, 101 := 7], map[100 := 1, 101 := status], None, map[1 := c], map[1 := 1], map[7 := [1]], 2,
          map[POLLER := poller, 1 := Running(Idle)], map[], loc)
  }

  const BUSY: Client := Client(1, [], Some(100))
  const PAIR: State := Pair(BUSY, Poll(PollIdle), 0, map[100 := Slot(1)])
  const PUSHING2: State := Pair(BUSY, Push(ByPoller([]), 101, 7, Find), 1, map[100 := Slot(1), 101 := Hand(POLLER)])
  const OVERLOADED: State := Pair(Client(1, [101], Some(100)), Poll(Batch([])), 1, map[100 := Slot(1), 101 := Queue(1)])

  lemma ReachPair()
    ensures Reachable(PAIR) && Calm(PAIR)
  {
    hide Reachable;
    ReachChecked();
    var s := Step(CHECKED, Submit(101, 7));
    Same(s, PAIR);
  }

  lemma ReachPushing2()
    ensures Reachable(PUSHING2) && Calm(PUSHING2)
  {
    hide Reachable, CalmBut, FreshRows, ExtractedOne, Perform;
    ReachPair();
    CalmIsCalmBut(PAIR, POLLER);
    FreshOne(PAIR, 101);
    ExtractOne(PAIR, 101);
    Extracted2Is();
    Pushing2Is();
    assert [101] + [] == [101];
    TakeFirst(EXTRACTED2, 101, []);
  }

  const EXTRACTED2: State := Pair(BUSY, Poll(Batch([101])), 1, map[100 := Slot(1), 101 := Pending])

  lemma Extracted2Is()
    ensures ExtractedOne(PAIR, 101) == EXTRACTED2
  {
    Same(ExtractedOne(PAIR, 101), EXTRACTED2);
  }

  lemma Pushing2Is()
    ensures Perform(EXTRACTED2, POLLER, TakePending(101), Push(ByPoller([]), 101, 7, Find)) == PUSHING2
  {
    hide StatusAfter, UndoAfter, ObjsAfter, ClientsAfter, ListsAfter, LocAfter;
    TakeEffect(EXTRACTED2, 101);
    Same(Perform(EXTRACTED2, POLLER, TakePending(101), Push(ByPoller([]), 101, 7, Find)), PUSHING2);
  }

  lemma OverloadedIs()
    ensures Perform(Goto(PUSHING2, POLLER, Push(ByPoller([]), 101, 7, WantChosen(1))), POLLER, Deliver(101, 1), Poll(Batch([]))) == OVERLOADED
  {
    hide StatusAfter, UndoAfter, ObjsAfter, ClientsAfter, ListsAfter, LocAfter;
    var s := Goto(PUSHING2, POLLER, Push(ByPoller([]), 101, 7, WantChosen(1)));
    assert s.objs[1].queue + [101] == [101];
    DeliverEffect(s, POLLER, 101, 1);
    Same(Perform(s, POLLER, Deliver(101, 1), Poll(Batch([]))), OVERLOADED);
  }

  /** A second solution is popped over the one still being checked. */
  lemma OverwritingLoses() returns (s: State, l: Label)
    ensures Loses(s, l, 100) && 1 in s.threads && s.threads[1] == Running(ProcHold)
  {
    hide Reachable, CalmBut, LocAfter;
    ReachOverloaded();
    CalmIsCalmBut(OVERLOADED, 1);
    WantNext(OVERLOADED, 1);
    s, l := Goto(OVERLOADED, 1, Running(ProcHold)), Act(1, Go);
  }

  lemma ReachOverloaded()
    ensures Reachable(OVERLOADED) && Calm(OVERLOADED)
  {
    hide Reachable, CalmBut, Perform;
    ReachPushing2();
    CalmIsCalmBut(PUSHING2, POLLER);
    ChooseFirst(PUSHING2, POLLER, ByPoller([]), 101, 7, 1);
    DeliverNow(Goto(PUSHING2, POLLER, Push(ByPoller([]), 101, 7, WantChosen(1))), POLLER, ByPoller([]), 101, 7, 1);
    OverloadedIs();
  }

  /** A client with no work left goes from waiting for its own mutex to the end of remove_client. */
  lemma DrainNothing(s: State, t: Tid)
    requires Reachable(s) && CalmBut(s, t) && t in s.threads && s.threads[t] == Removing(DrainWant)
    requires Me(s, t).queue == [] && Me(s, t).checking.None?
    ensures Reachable(Goto(s, t, Removing(Done))) && CalmBut(Goto(s, t, Removing(Done)), t)
  {
    hide Reachable, CalmBut;
    var s1 := Lock(s, t, Removing(DrainWant));
    s1 := Move(s1, t, Go, Removing(Drain));
    s1 := Move(s1, t, Go, Removing(Done));
    assert s1 == Goto(s, t, Removing(Done));
  }

  const DEPARTED: State := State(
    map[100 := 7], map[100 := 1], None, map[1 := Client(1, [], None)], map[], map[7 := []], 1,
    map[POLLER := WAITING, 1 := Removing(Done)], map[1 := 0], map[100 := Hand(POLLER)])

  lemma DepartedIs()
    ensures Goto(Left(CHOSEN, 1, 7), 1, Removing(Done)) == DEPARTED
  {
    assert [1][1..] == [] && Without([1], 1) == [];
    Same(Goto(Left(CHOSEN, 1, 7), 1, Removing(Done)), DEPARTED);
  }

  lemma ReachDeparted()
    ensures Reachable(DEPARTED) && CalmBut(DEPARTED, POLLER)
  {
    hide Reachable, CalmBut, Without;
    ReachChosen();
    CalmIsCalmBut(CHOSEN, 1);
    Leaves(CHOSEN, 1, 7);
    DrainNothing(Left(CHOSEN, 1, 7), 1);
    DepartedIs();
    Switch(DEPARTED, 1, POLLER);
  }

  /** The chosen client is removed and freed before the solution is pushed to it. */
  lemma FreedClientLoses() returns (s: State, l: Label)
    ensures Loses(s, l, 100) && POLLER in s.threads && s.threads[POLLER] == Push(ByPoller([]), 100, 7, HoldChosen(1))
  {
    hide Reachable, CalmBut, LocAfter;
    ReachDeparted();
    s := Lock(DEPARTED, POLLER, WAITING);
    l := Act(POLLER, Go);
  }

  /** There is no client for the compiler, and the "FL" is not stored. */
  lemma UnstoredFailureLoses() returns (s: State, l: Label)
    ensures Loses(s, l, 100) && POLLER in s.threads && s.threads[POLLER] == Push(ByPoller([]), 100, 7, Find)
  {
    hide Reachable, CalmBut, FreshRows, LocAfter;
    ReachSubmitted();
    CalmIsCalmBut(SUBMITTED, POLLER);
    FreshOne(SUBMITTED, 100);
    ExtractOne(SUBMITTED, 100);
    assert [100] + [] == [100];
    s := ExtractedOne(SUBMITTED, 100);
    TakeFirst(s, 100, []);
    s := Perform(s, POLLER, TakePending(100), Push(ByPoller([]), 100, 7, Find));
    l := Act(POLLER, Fail);
  }

  /** The commit of the extraction fails, and nothing is undone. */
  lemma FailedCommitLoses() returns (s: State, l: Label)
    ensures Loses(s, l, 100) && POLLER in s.threads && s.threads[POLLER] == Poll(Marking([100], 1))
  {
    hide Reachable, CalmBut, FreshRows, LocAfter;
    ReachSubmitted();
    CalmIsCalmBut(SUBMITTED, POLLER);
    FreshOne(SUBMITTED, 100);
    BeginOne(SUBMITTED, 100);
    MarkOne(SUBMITTED, 100);
    s, l := MarkedOne(SUBMITTED, 100), Act(POLLER, Fail);
  }

  // ---- A removal inside the poller's transaction ----

  /** Client 1 has left while the poller extracts row 101. */
  function Removed(c1: Client, pc1: PC, poller: PC, status: map<SolutionId, nat>, undo: Option<map<SolutionId, nat>>, loc: map<SolutionId, Loc>): State {
    State(map[100 := 7, 101 := 7], status, undo, map[1 := c1], map[], map[7 := []], 1, map[POLLER := poller, 1 := pc1], map[1 := 0], loc)
  }

  const SCANNED: PC := Push(ByRemover(true), 100, 7, Scan(0, None))

  /** remove_client finds nobody to take its solution over. */
  lemma ScanNobody(poller: PC, status: map<SolutionId, nat>, undo: Option<map<SolutionId, nat>>, loc: map<SolutionId, Loc>)
    requires var s := Removed(BUSY, Removing(DrainWant), poller, status, undo, loc); Reachable(s) && CalmBut(s, 1)
    ensures var s := Removed(BUSY, SCANNED, poller, status, undo, loc); Reachable(s) && CalmBut(s, 1)
  {
    hide Reachable, CalmBut;
    var s := Removed(BUSY, Removing(DrainWant), poller, status, undo, loc);
    var s1 := Lock(s, 1, Removing(DrainWant));
    s1 := Move(s1, 1, Go, Push(ByRemover(true), 100, 7, Find));
    s1 := Move(s1, 1, Go, Push(ByRemover(true), 100, 7, WantClients));
    s1 := Lock(s1, 1, Push(ByRemover(true), 100, 7, WantClients));
    s1 := Lock(s1, 1, Push(ByRemover(true), 100, 7, WantList));
    RemovedThreads(poller, Removing(DrainWant), SCANNED);
    assert s1 == Goto(s, 1, SCANNED);
  }

  lemma LeftAs(s: State, poller: PC, status: map<SolutionId, nat>, undo: Option<map<SolutionId, nat>>)
    requires s == PAIR.(status := status, undo := undo, threads := map[POLLER := poller, 1 := Running(Idle)])
    ensures Left(s, 1, 7) == Removed(BUSY, Removing(DrainWant), poller, status, undo, map[100 := Slot(1)])
  {
    NobodyListed();
    RemovedThreads(poller, Running(Idle), Removing(DrainWant));
    Same(Left(s, 1, 7), Removed(BUSY, Removing(DrainWant), poller, status, undo, map[100 := Slot(1)]));
  }

  lemma NobodyListed()
    ensures map[7 := [1]][7 := Without([1], 1)] == map[7 := []]
  {
    assert [1][1..] == [] && Without([1], 1) == [];
  }

  lemma RemovedThreads(poller: PC, a: PC, b: PC)
    ensures map[POLLER := poller, 1 := a][1 := b] == map[POLLER := poller, 1 := b]
  {
  }

  // ---- A result taken back ----

  const BEGUN: PC := Poll(Marking([101], 0))
  const FAILING: State := Removed(BUSY, SCANNED, BEGUN, map[100 := 1, 101 := 0], Some(map[]), map[100 := Slot(1)])
  const POSTED: State := Removed(BUSY, Removing(DrainClear), BEGUN, map[100 := 2, 101 := 0], Some(map[100 := 1]), map[100 := Dropped])

  lemma ReachFailing()
    ensures Reachable(FAILING) && CalmBut(FAILING, 1)
  {
    hide Reachable, CalmBut, FreshRows, Without;
    ReachPair();
    CalmIsCalmBut(PAIR, POLLER);
    FreshOne(PAIR, 101);
    BeginOne(PAIR, 101);
    Switch(Began(PAIR, 101), POLLER, 1);
    Leaves(Began(PAIR, 101), 1, 7);
    LeftAs(Began(PAIR, 101), BEGUN, map[100 := 1, 101 := 0], Some(map[]));
    ScanNobody(BEGUN, map[100 := 1, 101 := 0], Some(map[]), map[100 := Slot(1)]);
  }

  lemma PostedIs()
    ensures Perform(FAILING, 1, MarkFailure(100, Go), Removing(DrainClear)) == POSTED
  {
    Same(Perform(FAILING, 1, MarkFailure(100, Go), Removing(DrainClear)), POSTED);
  }

  lemma ReachPosted()
    ensures Reachable(POSTED)
  {
    hide Reachable, CalmBut, Perform;
    ReachFailing();
    var s := Run1(FAILING, 1, Go, Removing(DrainClear), MarkFailure(100, Go));
    PostedIs();
  }

  /** The "FL" of a removed client's solution is stored inside the poller's transaction; then an update
      of the extraction fails and the rollback takes the "FL" back: nobody has the solution. */
  lemma RollbackLoses() returns (s: State, l: Label)
    ensures Reachable(s) && Enabled(s, l) && IsPosted(s, 100) && TakesBack(s, l, 100) && Missing(Next(s, l), 100)
  {
    hide Reachable;
    ReachPosted();
    s := Step(POSTED, Act(POLLER, Fail));
    assert s == Goto(POSTED, POLLER, Poll(RollingBack([]))) by { assert [101][..0] == []; }
    l := Act(POLLER, Go);
    TakenBackIsMissing();
  }

  lemma TakenBackIsMissing()
    ensures var s := Goto(POSTED, POLLER, Poll(RollingBack([]))); Missing(Next(s, Act(POLLER, Go)), 100)
  {
    hide ListsAfter, ClientsAfter;
  }

  // ---- A row handed out while it is new ----

  const MARKED: PC := Poll(Marking([101], 1))
  const FAILING2: State := Removed(BUSY, SCANNED, MARKED, map[100 := 1, 101 := 1], Some(map[101 := 0]), map[100 := Slot(1)])
  const UNDONE: State := Removed(BUSY, Removing(DrainClear), MARKED, map[100 := 1, 101 := 0], None, map[100 := Dropped])

  lemma ReachFailing2()
    ensures Reachable(FAILING2) && CalmBut(FAILING2, 1)
  {
    hide Reachable, CalmBut, FreshRows, Without;
    ReachPair();
    CalmIsCalmBut(PAIR, POLLER);
    FreshOne(PAIR, 101);
    BeginOne(PAIR, 101);
    MarkOne(PAIR, 101);
    Switch(MarkedOne(PAIR, 101), POLLER, 1);
    Leaves(MarkedOne(PAIR, 101), 1, 7);
    LeftAs(MarkedOne(PAIR, 101), MARKED, map[100 := 1, 101 := 1], Some(map[101 := 0]));
    ScanNobody(MARKED, map[100 := 1, 101 := 1], Some(map[101 := 0]), map[100 := Slot(1)]);
  }

  lemma UndoneIs()
    ensures Perform(FAILING2, 1, MarkFailure(100, Undone), Removing(DrainClear)) == UNDONE
  {
    assert FAILING2.status + FAILING2.undo.value == UNDONE.status;
    RemovedThreads(MARKED, SCANNED, Removing(DrainClear));
    Same(Perform(FAILING2, 1, MarkFailure(100, Undone), Removing(DrainClear)), UNDONE);
  }

  lemma ReachUndone()
    ensures Reachable(UNDONE) && CalmBut(UNDONE, 1)
  {
    hide Reachable, CalmBut, Perform;
    ReachFailing2();
    var s := Run1(FAILING2, 1, Undone, Removing(DrainClear), MarkFailure(100, Undone));
    UndoneIs();
  }

  /** The "FL" of a removed client's solution fails and the server undoes the poller's transaction, with
      the mark of row 101 in it. The commit succeeds all the same, and 101 is handed out as new. */
  lemma UndoneMarkStrays() returns (s: State, l: Label)
    ensures Reachable(s) && Enabled(s, l) && Strays(s, l, 101)
  {
    hide Reachable, CalmBut;
    ReachUndone();
    s, l := UNDONE, Act(POLLER, Go);
  }

  const FREED: Client := Client(1, [], None)
  const DRAINED: State := Removed(FREED, Removing(Done), MARKED, map[100 := 1, 101 := 0], None, map[100 := Dropped])
  const STRAYED: State := Removed(FREED, Removing(Done), Poll(Batch([101])), map[100 := 1, 101 := 0], None, map[100 := Dropped, 101 := Pending])

  lemma ReachStrayed()
    ensures Reachable(STRAYED) && Calm(STRAYED)
  {
    hide Reachable, CalmBut, StatusAfter, UndoAfter, ObjsAfter, ClientsAfter, ListsAfter, LocAfter;
    ReachDrained();
    Switch(DRAINED, 1, POLLER);
    var s := Run1(DRAINED, POLLER, Go, Poll(Batch([101])), CommitRows([101]));
    CommitEffect(DRAINED, 101);
    Same(s, STRAYED);
  }

  lemma ReachDrained()
    ensures Reachable(DRAINED) && CalmBut(DRAINED, 1)
  {
    hide Reachable, CalmBut;
    ReachUndone();
    var s := Run1(UNDONE, 1, Go, Removing(Drain), ForgetSlot);
    s := Move(s, 1, Go, Removing(Done));
    Same(s, DRAINED);
  }

  /** Client 2 registers and is given row 101. */
  function Served(c2: Client, poller: PC, status: nat, loc: Loc): State {
    State(map[100 := 7, 101 := 7], map[100 := 1, 101 := status], None, map[1 := FREED, 2 := c2], map[1 := 2], map[7 := [1]], 2,
          map[POLLER := poller, 1 := Removing(Done), 2 := Running(Idle)], map[1 := 0], map[100 := Dropped, 101 := loc])
  }

  const SERVING: State := Served(Client(1, [], None), Poll(Batch([101])), 0, Pending)
  const PUSHING3: State := Served(Client(1, [], None), Push(ByPoller([]), 101, 7, Find), 0, Hand(POLLER))
  const SERVED: State := Served(Client(1, [101], None), Poll(PollIdle), 0, Queue(2))
  const TWICE: State := Served(Client(1, [101], None), Poll(Batch([101])), 1, Pending)

  lemma ReachServing()
    ensures Reachable(SERVING) && Calm(SERVING)
  {
    hide Reachable, CalmBut, Entered;
    ReachStrayed();
    CalmIsCalmBut(STRAYED, 2);
    Enter(STRAYED, 2, 7);
    ServingIs();
  }

  lemma ServingIs()
    ensures Entered(STRAYED, 2, 7) == SERVING
  {
    assert [] + [1] == [1];
    Same(Entered(STRAYED, 2, 7), SERVING);
  }

  lemma Pushing3Is()
    ensures Perform(SERVING, POLLER, TakePending(101), Push(ByPoller([]), 101, 7, Find)) == PUSHING3
  {
    hide StatusAfter, UndoAfter, ObjsAfter, ClientsAfter, ListsAfter, LocAfter;
    TakeEffect(SERVING, 101);
    ServedLoc(Pending, Hand(POLLER));
    ServedThreads(Poll(Batch([101])), Push(ByPoller([]), 101, 7, Find));
    Same(Perform(SERVING, POLLER, TakePending(101), Push(ByPoller([]), 101, 7, Find)), PUSHING3);
  }

  const CHOSEN3: State := Served(Client(1, [], None), Push(ByPoller([]), 101, 7, WantChosen(2)), 0, Hand(POLLER))
  const FILLED: State := Served(Client(1, [101], None), Poll(Batch([])), 0, Queue(2))

  lemma FilledIs()
    ensures Perform(CHOSEN3, POLLER, Deliver(101, 2), Poll(Batch([]))) == FILLED
  {
    hide StatusAfter, UndoAfter, ObjsAfter, ClientsAfter, ListsAfter, LocAfter;
    assert CHOSEN3.objs[2].queue + [101] == [101];
    DeliverEffect(CHOSEN3, POLLER, 101, 2);
    ServedObjs(Client(1, [], None), Client(1, [101], None));
    ServedLoc(Hand(POLLER), Queue(2));
    ServedThreads(Push(ByPoller([]), 101, 7, WantChosen(2)), Poll(Batch([])));
    Same(Perform(CHOSEN3, POLLER, Deliver(101, 2), Poll(Batch([]))), FILLED);
  }

  lemma ReachFilled()
    ensures Reachable(FILLED) && CalmBut(FILLED, POLLER)
  {
    hide Reachable, CalmBut, Perform;
    ReachServing();
    CalmIsCalmBut(SERVING, POLLER);
    assert [101] + [] == [101];
    TakeFirst(SERVING, 101, []);
    Pushing3Is();
    ChooseFirst(PUSHING3, POLLER, ByPoller([]), 101, 7, 2);
    Same(Goto(PUSHING3, POLLER, Push(ByPoller([]), 101, 7, WantChosen(2))), CHOSEN3);
    DeliverNow(CHOSEN3, POLLER, ByPoller([]), 101, 7, 2);
    FilledIs();
  }

  lemma ReachServed()
    ensures Reachable(SERVED) && Calm(SERVED)
  {
    hide Reachable, CalmBut;
    ReachFilled();
    var s := Move(FILLED, POLLER, Go, Poll(PollIdle));
    ServedThreads(Poll(Batch([])), Poll(PollIdle));
    Same(s, SERVED);
  }

  /** The next poll hands row 101 out once more: it is in a client's queue and in the poller's batch. */
  lemma HandedTwice()
    ensures Reachable(TWICE) && InPlace(TWICE, Queue(2), 101) && InPlace(TWICE, Pending, 101)
  {
    hide Reachable, CalmBut, FreshRows, ExtractedOne;
    ReachServed();
    CalmIsCalmBut(SERVED, POLLER);
    FreshOne(SERVED, 101);
    ExtractOne(SERVED, 101);
    TwiceIs();
  }

  lemma TwiceIs()
    ensures ExtractedOne(SERVED, 101) == TWICE
  {
    ServedStatus(0, 1);
    ServedLoc(Queue(2), Pending);
    ServedThreads(Poll(PollIdle), Poll(Batch([101])));
    Same(ExtractedOne(SERVED, 101), TWICE);
  }

  lemma ServedStatus(a: nat, b: nat)
    ensures map[100 := 1, 101 := a][101 := b] == map[100 := 1, 101 := b]
  {
  }

  lemma ServedLoc(a: Loc, b: Loc)
    ensures map[100 := Dropped, 101 := a][101 := b] == map[100 := Dropped, 101 := b]
  {
  }

  lemma ServedThreads(a: PC, b: PC)
    ensures map[POLLER := a, 1 := Removing(Done), 2 := Running(Idle)][POLLER := b] == map[POLLER := b, 1 := Removing(Done), 2 := Running(Idle)]
  {
  }

  lemma ServedObjs(a: Client, b: Client)
    ensures map[1 := FREED, 2 := a][2 := b] == map[1 := FREED, 2 := b]
  {
  }

  // ---- A solution in two places ----

  /** Clients 1 and 2 listed compiler 7; client 1 had 100 under check when it left. */
  function Duo(c2: Client, lists: map<Compiler, seq<ClientId>>, clients: map<ClientId, Tid>, lastId: ClientId,
               pc1: PC, removedAt: map<Tid, nat>, loc: Loc): State {
    State(map[100 := 7], map[100 := 1], None, map[1 := BUSY, 2 := c2], clients, lists, lastId,
          map[POLLER := Poll(PollIdle), 1 := pc1, 2 := Running(Idle)], removedAt, map[100 := loc])
  }

  const BOTH: State := Duo(Client(2, [], None), map[7 := [1, 2]], map[1 := 1, 2 := 2], 3, Running(Idle), map[], Slot(1))

  function Leaving(c2: Client, pc1: PC, loc: Loc): State {
    Duo(c2, map[7 := [2]], map[2 := 2], 2, pc1, map[1 := 0], loc)
  }

  lemma BothIs()
    ensures Entered(CHECKED, 2, 7) == BOTH
  {
    assert [1] + [2] == [1, 2];
    Same(Entered(CHECKED, 2, 7), BOTH);
  }

  lemma LeftIs()
    ensures Left(BOTH, 1, 7) == Leaving(Client(2, [], None), Removing(DrainWant), Slot(1))
  {
    assert [1, 2][1..] == [2] && [2][1..] == [];
    assert Without([2], 1) == [2] && Without([1, 2], 1) == [2];
    Same(Left(BOTH, 1, 7), Leaving(Client(2, [], None), Removing(DrainWant), Slot(1)));
  }

  const DOUBLED: State := Leaving(Client(2, [100], None), Removing(DrainClear), Queue(2))

  lemma DoubledIs()
    ensures var s := Leaving(Client(2, [], None), Push(ByRemover(true), 100, 7, WantChosen(2)), Slot(1));
            Perform(s, 1, Deliver(100, 2), Removing(DrainClear)) == DOUBLED
  {
    hide StatusAfter, UndoAfter, ClientsAfter, ListsAfter, ObjsAfter, LocAfter;
    var s := Leaving(Client(2, [], None), Push(ByRemover(true), 100, 7, WantChosen(2)), Slot(1));
    assert s.objs[2].queue + [100] == [100];
    DeliverEffect(s, 1, 100, 2);
    Same(Perform(s, 1, Deliver(100, 2), Removing(DrainClear)), DOUBLED);
  }

  lemma ReachLeft()
    ensures var s := Leaving(Client(2, [], None), Removing(DrainWant), Slot(1)); Reachable(s) && CalmBut(s, 1)
  {
    hide Reachable, CalmBut, Entered, Left;
    ReachChecked();
    CalmIsCalmBut(CHECKED, 2);
    Enter(CHECKED, 2, 7);
    BothIs();
    assert Calm(BOTH);
    CalmIsCalmBut(BOTH, 1);
    Leaves(BOTH, 1, 7);
    LeftIs();
  }

  lemma ReachLeaving()
    ensures var s := Leaving(Client(2, [], None), Push(ByRemover(true), 100, 7, Find), Slot(1)); Reachable(s) && CalmBut(s, 1)
  {
    hide Reachable, CalmBut;
    ReachLeft();
    var s := Lock(Leaving(Client(2, [], None), Removing(DrainWant), Slot(1)), 1, Removing(DrainWant));
    s := Move(s, 1, Go, Push(ByRemover(true), 100, 7, Find));
    Same(s, Leaving(Client(2, [], None), Push(ByRemover(true), 100, 7, Find), Slot(1)));
  }

  /** A run in which solution 100 is in the slot of client 1 and in the queue of client 2. */
  lemma SlotAndQueue()
    ensures Reachable(DOUBLED)
    ensures DOUBLED.objs[1].checking == Some(100) && DOUBLED.objs[2].queue == [100]
  {
    hide Reachable, CalmBut, Perform;
    ReachLeaving();
    var s := Leaving(Client(2, [], None), Push(ByRemover(true), 100, 7, Find), Slot(1));
    ChooseFirst(s, 1, ByRemover(true), 100, 7, 2);
    var s' := Leaving(Client(2, [], None), Push(ByRemover(true), 100, 7, WantChosen(2)), Slot(1));
    Same(Goto(s, 1, Push(ByRemover(true), 100, 7, WantChosen(2))), s');
    DeliverNow(s', 1, ByRemover(true), 100, 7, 2);
    DoubledIs();
  }

  /** And one more step of client 2 puts it into two slots. */
  lemma TwoSlots() returns (s: State)
    ensures Reachable(s) && 1 in s.objs && 2 in s.objs
    ensures s.objs[1].checking == Some(100) && s.objs[2].checking == Some(100)
  {
    hide Reachable, CalmBut, LocAfter, StatusAfter, UndoAfter, ListsAfter, ClientsAfter;
    ReachSecondPop();
    s := Step(Goto(DOUBLED, 2, Running(ProcHold)), Act(2, Go));
  }

  lemma ReachSecondPop()
    ensures Reachable(Goto(DOUBLED, 2, Running(ProcHold)))
  {
    hide Reachable;
    SlotAndQueue();
    var s := Step(DOUBLED, Act(2, Process));
    assert s == Goto(DOUBLED, 2, Running(ProcWant));
    s := Step(s, Acquire(2));
    assert s == Goto(DOUBLED, 2, Running(ProcHold));
  }
}
