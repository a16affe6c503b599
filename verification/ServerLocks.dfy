/** Index consistency and deadlock freedom of the dispatcher, in every run. */
module ServerLocks {
  import opened Options
  import opened ServerModel

  // ---- The life of a thread ----

  datatype Class =
    | New       // client_loop before its client is in clients_map
    | Live      // between HASH_ADD_INT(clients_map, ...) and HASH_DEL(clients_map, ...)
    | Removed   // after it
    | Poller

  function ClassOf(pc: PC): Class {
    match pc
    case Entering(_, _) => New
    case Running(_) => Live
    case Removing(_) => Removed
    case Poll(_) => Poller
    case Push(caller, _, _, _) => if caller.ByPoller? then Poller else Removed
  }

  ghost predicate ThreadOk(s: State, t: Tid)
    requires t in s.threads
  {
    match ClassOf(s.threads[t])
    case New => t != POLLER && t !in s.objs && t !in s.removedAt
    case Poller => t == POLLER && t !in s.objs && t !in s.removedAt
    case Live => t != POLLER && t in s.objs && t !in s.removedAt && s.objs[t].id in s.clients && s.clients[s.objs[t].id] == t
    case Removed => t != POLLER && t in s.objs && t in s.removedAt && s.removedAt[t] < |s.removedAt|
  }

  /** clients_map holds exactly the live clients, each under its own id. */
  ghost predicate MapOk(s: State) {
    forall id | id in s.clients ::
      && s.clients[id] in s.threads && ClassOf(s.threads[s.clients[id]]).Live?
      && s.clients[id] in s.objs && s.objs[s.clients[id]].id == id
  }

  ghost predicate ThreadsOk(s: State) {
    && POLLER in s.threads
    && (forall t | t in s.threads :: ThreadOk(s, t))
    && s.objs.Keys <= s.threads.Keys && s.removedAt.Keys <= s.threads.Keys
    && MapOk(s)
  }

  // ---- Which piece of code leads where ----

  /** Effects that leave clients_map, the removal history and the objects' identity alone. */
  predicate Quiet(e: Effect) { !e.AddClient? && !e.DropClient? }

  /** Quiet effects a thread without a client object of its own may have. */
  predicate NotOwn(e: Effect) { e.Nothing? || e.MarkFailure? || e.Deliver? || e.TakePending? || OnDb(e) }

  /** The queries of the poller. */
  predicate OnDb(e: Effect) { e.BeginTx? || e.MarkRow? || e.CommitRows? || e.UndoTx? || e.GiveUp? }

  /** Code between lock requests only gives mutexes back. */
  lemma DecideHeld(s: State, t: Tid, c: Choice)
    requires t in s.threads && Wants(t, s.threads[t]).None?
    ensures Held(t, Decide(s, t, s.threads[t], c).0) <= Held(t, s.threads[t])
  {
    match s.threads[t]
    case Entering(_, _) =>
    case Running(step) => RunningHeld(s, t, step, c);
    case Removing(drain) =>
    case Poll(_) =>
    case Push(caller, x, k, stage) => PushHeld(s, t, caller, x, k, stage, c);
  }

  lemma RunningHeld(s: State, t: Tid, step: ClientStep, c: Choice)
    requires StepWants(t, step).None?
    ensures Held(t, DecideRunning(s, t, step, c).0) <= StepHeld(t, step)
  {
  }

  lemma PushHeld(s: State, t: Tid, caller: Caller, x: SolutionId, k: Compiler, stage: Stage, c: Choice)
    requires StageWants(stage, k).None?
    ensures var (pc, e) := DecidePush(s, caller, x, k, stage, c);
            Held(t, pc) <= CallerHeld(t, caller) + StageHeld(stage, k)
  {
    match stage
    case Find =>
    case Scan(i, best) =>
    case HoldCur(cur, i, best) =>
    case HoldChosen(o) =>
  }

  /** How a thread's class and its effect go together. */
  ghost predicate ClassStep(pc0: PC, pc: PC, e: Effect) {
    && (pc0.Entering? <==> e.AddClient?) && (pc0.Entering? ==> ClassOf(pc).Live?)
    && (pc0 == Running(RemClients) <==> e.DropClient?) && (pc0 == Running(RemClients) ==> ClassOf(pc).Removed?)
    && (Quiet(e) ==> ClassOf(pc) == ClassOf(pc0))
    && (ClassOf(pc0).Poller? ==> NotOwn(e))
  }

  lemma DecideClass(s: State, t: Tid, pc0: PC, c: Choice)
    requires ClassOf(pc0).Live? ==> Me(s, t).id in s.clients
    ensures var (pc, e) := Decide(s, t, pc0, c); ClassStep(pc0, pc, e)
  {
    match pc0
    case Entering(_, _) =>
    case Running(step) =>
    case Removing(drain) =>
    case Poll(_) =>
    case Push(caller, x, k, stage) =>
  }

  lemma QuietObjs(s: State, t: Tid, e: Effect)
    requires Quiet(e) && (t in s.objs || NotOwn(e))
    ensures ObjsAfter(s, t, e).Keys == s.objs.Keys
    ensures forall o | o in s.objs :: ObjsAfter(s, t, e)[o].id == s.objs[o].id
  {
  }

  lemma QuietKeepsThreads(s: State, s': State, t: Tid, pc: PC)
    requires ThreadsOk(s) && t in s.threads && s'.threads == s.threads[t := pc]
    requires s'.clients == s.clients && s'.removedAt == s.removedAt && s'.objs.Keys == s.objs.Keys
    requires forall o | o in s.objs :: s'.objs[o].id == s.objs[o].id
    requires ClassOf(s.threads[t]) == ClassOf(pc)
    ensures ThreadsOk(s')
  {
    hide ClassOf, MapOk;
    forall u | u in s'.threads ensures ThreadOk(s', u) {
      assert ThreadOk(s, u);
    }
    QuietKeepsMap(s, s', t, pc);
  }

  lemma QuietKeepsMap(s: State, s': State, t: Tid, pc: PC)
    requires MapOk(s) && t in s.threads && s'.threads == s.threads[t := pc]
    requires s'.clients == s.clients && s'.objs.Keys == s.objs.Keys
    requires forall o | o in s.objs :: s'.objs[o].id == s.objs[o].id
    requires ClassOf(s.threads[t]) == ClassOf(pc)
    ensures MapOk(s')
  {
    hide ClassOf;
  }

  lemma AddKeepsThreads(s: State, t: Tid, pc: PC)
    requires ThreadsOk(s) && t in s.threads && ClassOf(s.threads[t]).New? && ClassOf(pc).Live? && s.lastId !in s.clients
    ensures ThreadsOk(Perform(s, t, AddClient, pc))
  {
    hide ClassOf, LocAfter, StatusAfter, ListsAfter, MapOk, ThreadOk;
    var s' := Perform(s, t, AddClient, pc);
    forall u | u in s'.threads ensures ThreadOk(s', u) { AddKeepsThread(s, t, pc, u); }
    AddKeepsMap(s, t, pc);
  }

  lemma AddKeepsThread(s: State, t: Tid, pc: PC, u: Tid)
    requires t in s.threads && ClassOf(s.threads[t]).New? && ClassOf(pc).Live? && s.lastId !in s.clients
    requires u in s.threads && ThreadOk(s, t) && ThreadOk(s, u)
    ensures ThreadOk(Perform(s, t, AddClient, pc), u)
  {
    hide ClassOf, LocAfter, StatusAfter, ListsAfter;
  }

  lemma AddKeepsMap(s: State, t: Tid, pc: PC)
    requires MapOk(s) && t in s.threads && ClassOf(s.threads[t]).New? && ClassOf(pc).Live?
    ensures MapOk(Perform(s, t, AddClient, pc))
  {
    hide ClassOf, LocAfter, StatusAfter, ListsAfter;
  }

  lemma DropKeepsThreads(s: State, t: Tid, pc: PC)
    requires ThreadsOk(s) && t in s.threads && ClassOf(s.threads[t]).Live? && ClassOf(pc).Removed?
    ensures ThreadsOk(Perform(s, t, DropClient, pc))
  {
    hide ClassOf, LocAfter, StatusAfter, ListsAfter, MapOk, ThreadOk;
    var s' := Perform(s, t, DropClient, pc);
    forall u | u in s'.threads ensures ThreadOk(s', u) { DropKeepsThread(s, t, pc, u); }
    DropKeepsMap(s, t, pc);
  }

  lemma DropKeepsThread(s: State, t: Tid, pc: PC, u: Tid)
    requires t in s.threads && ClassOf(s.threads[t]).Live? && ClassOf(pc).Removed?
    requires u in s.threads && ThreadOk(s, t) && ThreadOk(s, u)
    ensures ThreadOk(Perform(s, t, DropClient, pc), u)
  {
    hide ClassOf, LocAfter, StatusAfter, ListsAfter;
    var s' := Perform(s, t, DropClient, pc);
    assert |s'.removedAt| == |s.removedAt| + 1;
  }

  lemma DropKeepsMap(s: State, t: Tid, pc: PC)
    requires MapOk(s) && t in s.threads && ThreadOk(s, t) && ClassOf(s.threads[t]).Live?
    ensures MapOk(Perform(s, t, DropClient, pc))
  {
    hide ClassOf, LocAfter, StatusAfter, ListsAfter;
  }

  lemma GotClass(s: State, pc: PC)
    ensures ClassOf(Got(s, pc)) == ClassOf(pc)
  {
  }

  lemma StepThreadsOk(s: State, l: Label)
    requires ThreadsOk(s) && Enabled(s, l)
    ensures ThreadsOk(Next(s, l))
  {
    hide Decide, Got, Wants, Held, ObjsAfter, LocAfter, StatusAfter, ListsAfter;
    var s' := Next(s, l);
    match l
    case Submit(_, _) =>
      forall u | u in s'.threads ensures ThreadOk(s', u) { assert ThreadOk(s, u); }
    case Accept(t, ks) =>
      assert ClassOf(s'.threads[t]).New?;
      forall u | u in s'.threads ensures ThreadOk(s', u) { if u != t { assert ThreadOk(s, u); } }
    case Acquire(t) =>
      GotClass(s, s.threads[t]);
      QuietKeepsThreads(s, s', t, s'.threads[t]);
    case Act(t, c) => ActThreadsOk(s, t, c);
  }

  lemma ActThreadsOk(s: State, t: Tid, c: Choice)
    requires ThreadsOk(s) && Enabled(s, Act(t, c))
    ensures ThreadsOk(Next(s, Act(t, c)))
  {
    hide Decide, Wants, Held, ObjsAfter, LocAfter, StatusAfter, ListsAfter, ThreadsOk;
    ThreadsGive(s, t);
    var (pc, e) := Decide(s, t, s.threads[t], c);
    DecideClass(s, t, s.threads[t], c);
    if e.AddClient? {
      AddKeepsThreads(s, t, pc);
    } else if e.DropClient? {
      DropKeepsThreads(s, t, pc);
    } else {
      QuietObjs(s, t, e);
      QuietKeepsThreads(s, Next(s, Act(t, c)), t, pc);
    }
  }

  // ---- Mutual exclusion ----

  ghost predicate MutexOk(s: State) {
    forall t, u | t in s.threads && u in s.threads && t != u :: Held(t, s.threads[t]) !! Held(u, s.threads[u])
  }

  lemma GotHeld(s: State, t: Tid, pc: PC)
    requires Wants(t, pc).Some?
    ensures Held(t, Got(s, pc)) <= Held(t, pc) + {Wants(t, pc).value}
  {
    match pc
    case Entering(_, _) =>
    case Running(step) =>
    case Removing(_) =>
    case Poll(_) =>
    case Push(_, _, _, stage) =>
  }

  lemma StepMutexOk(s: State, l: Label)
    requires MutexOk(s) && Enabled(s, l)
    ensures MutexOk(Next(s, l))
  {
    hide Held, Wants, Got, Decide, ObjsAfter, LocAfter, StatusAfter, ListsAfter, ClientsAfter;
    match l
    case Submit(_, _) =>
    case Accept(t, ks) => NewHolds(t, ks);
    case Acquire(t) => GotHeld(s, t, s.threads[t]);
    case Act(t, c) => DecideHeld(s, t, c);
  }

  lemma NewHolds(t: Tid, ks: seq<Compiler>)
    ensures Held(t, Entering(ks, false)) == {}
  {
  }

  // ---- Index consistency ----

  /** Compilers whose clients_list may still hold the id of the client that thread t removes. */
  ghost predicate DelistedOk(s: State, t: Tid)
    requires t in s.threads
  {
    s.threads[t].Running? ==>
      match s.threads[t].step
      case RemCompilers(todo) => OnlyIn(s, Me(s, t).id, todo)
      case RemWantList(_, todo) => OnlyIn(s, Me(s, t).id, todo)
      case RemList(_, todo) => OnlyIn(s, Me(s, t).id, todo)
      case RemWantClients => OnlyIn(s, Me(s, t).id, {})
      case RemClients => OnlyIn(s, Me(s, t).id, {})
      case _ => true
  }

  ghost predicate OnlyIn(s: State, id: ClientId, ks: set<Compiler>) {
    forall k | k in s.lists && k !in ks :: id !in s.lists[k]
  }

  /** Every id in a compiler's list is in clients_map. */
  ghost predicate Indexed(s: State) {
    forall k, i | k in s.lists && 0 <= i < |s.lists[k]| :: s.lists[k][i] in s.clients
  }

  ghost predicate IndexOk(s: State) {
    && Indexed(s)
    && forall t | t in s.threads :: DelistedOk(s, t)
  }

  lemma RunningIndex(s: State, t: Tid, step: ClientStep, c: Choice)
    requires StepWants(t, step).None? && ChoiceFits(s, Running(step), c)
    ensures var (pc, e) := DecideRunning(s, t, step, c);
            && (e.Enlist? ==> pc.Running? && pc.step.RegCompilers?)
            && (e.Delist? ==> step.RemList? && pc == Running(RemCompilers(step.todo - {e.k})) && e.k == step.k)
            && (pc.Running? ==>
                  && (pc.step.RemCompilers? ==> e.Delist?)
                  && (pc.step.RemWantList? ==> step == RemCompilers(pc.step.todo))
                  && !pc.step.RemList? && !pc.step.RemClients?
                  && (pc.step.RemWantClients? ==> step == RemCompilers({})))
  {
  }

  /** Two live clients have different ids. */
  lemma LiveIdsDiffer(s: State, t: Tid, u: Tid)
    requires ThreadsOk(s) && t in s.threads && u in s.threads && t != u
    requires ClassOf(s.threads[t]).Live? && ClassOf(s.threads[u]).Live?
    ensures Me(s, t).id != Me(s, u).id && Me(s, t).id in s.clients
  {
    assert ThreadOk(s, t) && ThreadOk(s, u);
  }

  lemma SameIndex(s: State, s': State, t: Tid)
    requires IndexOk(s) && t in s.threads && t in s'.threads && s'.threads == s.threads[t := s'.threads[t]]
    requires s'.lists == s.lists
    requires forall k, i | k in s.lists && 0 <= i < |s.lists[k]| :: s.lists[k][i] in s'.clients
    requires forall u | u in s.threads && u != t :: Me(s', u).id == Me(s, u).id || ClassOf(s.threads[u]).New?
    requires DelistedOk(s', t)
    ensures IndexOk(s')
  {
    hide Me;
    forall u | u in s'.threads ensures DelistedOk(s', u) {
      if u != t { assert DelistedOk(s, u); }
    }
  }

  lemma EnlistKeepsIndex(s: State, t: Tid, k: Compiler, pc: PC)
    requires ThreadsOk(s) && IndexOk(s) && t in s.threads && s.threads[t].Running? && pc.Running? && pc.step.RegCompilers?
    ensures IndexOk(Perform(s, t, Enlist(k), pc))
  {
    hide LocAfter, StatusAfter;
    var s' := Perform(s, t, Enlist(k), pc);
    var id := Me(s, t).id;
    assert ThreadOk(s, t);
    assert forall j | j in s.lists && j != k :: s'.lists[j] == s.lists[j];
    assert s'.lists[k] == ListFor(s, k) + [id];
    forall u | u in s'.threads ensures DelistedOk(s', u) {
      if u != t {
        assert DelistedOk(s, u);
        if ClassOf(s.threads[u]).Live? { LiveIdsDiffer(s, t, u); }
      }
    }
    forall j, i | j in s'.lists && 0 <= i < |s'.lists[j]| ensures s'.lists[j][i] in s'.clients {
      if j == k && i == |ListFor(s, k)| {} else { assert s'.lists[j][i] == s.lists[j][i]; }
    }
  }

  lemma DelistKeepsIndex(s: State, t: Tid, k: Compiler, todo: set<Compiler>)
    requires ThreadsOk(s) && IndexOk(s) && t in s.threads && s.threads[t] == Running(RemList(k, todo))
    ensures IndexOk(Perform(s, t, Delist(k), Running(RemCompilers(todo - {k}))))
  {
    hide LocAfter, StatusAfter;
    var s' := Perform(s, t, Delist(k), Running(RemCompilers(todo - {k})));
    var id := Me(s, t).id;
    assert DelistedOk(s, t);
    assert s'.lists[k] == Without(ListFor(s, k), id);
    assert forall j | j in s.lists && j != k :: s'.lists[j] == s.lists[j];
    forall u | u in s'.threads ensures DelistedOk(s', u) {
      if u != t { assert DelistedOk(s, u); }
    }
    forall j, i | j in s'.lists && 0 <= i < |s'.lists[j]| ensures s'.lists[j][i] in s'.clients {
      assert s'.lists[j][i] in s'.lists[j];
      assert s'.lists[j][i] in ListFor(s, j);
    }
  }

  lemma StepIndexOk(s: State, l: Label)
    requires ThreadsOk(s) && IndexOk(s) && Enabled(s, l)
    ensures IndexOk(Next(s, l))
  {
    hide Decide, ClassOf, Wants, Held, ObjsAfter, LocAfter, StatusAfter, ListsAfter, ThreadsOk;
    var s' := Next(s, l);
    match l
    case Submit(_, _) =>
      forall u | u in s'.threads ensures DelistedOk(s', u) { assert DelistedOk(s, u); }
    case Accept(t, ks) =>
      forall u | u in s'.threads ensures DelistedOk(s', u) { if u != t { assert DelistedOk(s, u); } }
    case Acquire(t) =>
      assert DelistedOk(s, t);
      SameIndex(s, s', t);
    case Act(t, c) => ActIndexOk(s, t, c);
  }

  lemma ActIndexOk(s: State, t: Tid, c: Choice)
    requires ThreadsOk(s) && IndexOk(s) && Enabled(s, Act(t, c))
    ensures IndexOk(Next(s, Act(t, c)))
  {
    hide DecideRunning, DecidePush, DecidePoll, DecideRemoving, StepWants, Held, Perform, ThreadsOk, IndexOk, DelistedOk;
    ThreadsGive(s, t);
    var (pc, e) := Decide(s, t, s.threads[t], c);
    DecideClass(s, t, s.threads[t], c);
    match s.threads[t]
    case Entering(_, _) => OtherEffectsKeepIndex(s, t, pc, e);
    case Running(step) =>
      RunningIndex(s, t, step, c);
      if e.Enlist? {
        EnlistKeepsIndex(s, t, e.k, pc);
      } else if e.Delist? {
        DelistKeepsIndex(s, t, e.k, step.todo);
      } else {
        OtherEffectsKeepIndex(s, t, pc, e);
      }
    case Removing(_) => OtherPc(s, t, c); OtherEffectsKeepIndex(s, t, pc, e);
    case Poll(_) => OtherPc(s, t, c); OtherEffectsKeepIndex(s, t, pc, e);
    case Push(_, _, _, _) => OtherPc(s, t, c); OtherEffectsKeepIndex(s, t, pc, e);
  }

  lemma OtherPc(s: State, t: Tid, c: Choice)
    requires t in s.threads && (s.threads[t].Removing? || s.threads[t].Poll? || s.threads[t].Push?)
    ensures var (pc, e) := Decide(s, t, s.threads[t], c); !pc.Running? && !pc.Entering? && !e.Enlist? && !e.Delist?
  {
  }

  lemma OtherEffectsKeepIndex(s: State, t: Tid, pc: PC, e: Effect)
    requires IndexOk(s) && t in s.threads && !e.Enlist? && !e.Delist?
    requires s.threads[t].Running? ==> t in s.objs
    requires e.DropClient? ==> s.threads[t] == Running(RemClients)
    requires pc.Running? ==>
      && !pc.step.RemCompilers? && !pc.step.RemList? && !pc.step.RemClients?
      && (pc.step.RemWantList? ==> s.threads[t] == Running(RemCompilers(pc.step.todo)))
      && (pc.step.RemWantClients? ==> s.threads[t] == Running(RemCompilers({})))
    requires e.AddClient? ==> pc.Running? && pc.step.RegWantCompilers?
    ensures IndexOk(Perform(s, t, e, pc))
  {
    hide LocAfter, StatusAfter, ListsAfter, ObjsAfter, IndexOk;
    var s' := Perform(s, t, e, pc);
    OtherIds(s, t, e);
    ListsStay(s, t, e);
    IndexGives(s, t);
    if e.DropClient? { DropKeepsIndexed(s, t, pc); }
    SameIndex(s, s', t);
  }

  lemma IndexGives(s: State, t: Tid)
    requires IndexOk(s) && t in s.threads
    ensures DelistedOk(s, t) && Indexed(s)
  {
  }

  lemma ThreadsGive(s: State, t: Tid)
    requires ThreadsOk(s) && t in s.threads
    ensures ThreadOk(s, t)
  {
  }

  lemma PollerThere(s: State)
    requires Inv(s)
    ensures POLLER in s.threads
  {
  }

  lemma ListsStay(s: State, t: Tid, e: Effect)
    requires !e.Enlist? && !e.Delist?
    ensures ListsAfter(s, t, e) == s.lists
  {
  }

  lemma OtherIds(s: State, t: Tid, e: Effect)
    ensures forall u | u != t && u in s.objs :: u in ObjsAfter(s, t, e) && ObjsAfter(s, t, e)[u].id == s.objs[u].id
    ensures forall u | u != t && u !in s.objs :: u !in ObjsAfter(s, t, e)
    ensures s.objs.Keys <= ObjsAfter(s, t, e).Keys
    ensures !e.AddClient? && t in s.objs ==> t in ObjsAfter(s, t, e) && ObjsAfter(s, t, e)[t].id == s.objs[t].id
  {
  }

  lemma DropKeepsIndexed(s: State, t: Tid, pc: PC)
    requires IndexOk(s) && t in s.threads && s.threads[t] == Running(RemClients)
    ensures forall k, i | k in s.lists && 0 <= i < |s.lists[k]| :: s.lists[k][i] in ClientsAfter(s, t, DropClient)
  {
    assert DelistedOk(s, t);
    forall k, i | k in s.lists && 0 <= i < |s.lists[k]| ensures s.lists[k][i] in ClientsAfter(s, t, DropClient) {
      assert s.lists[k][i] in s.lists[k];
    }
  }

  // ---- The clients that a push looks at ----

  predicate InMap(s: State, o: Tid) { o in s.objs && o !in s.removedAt }

  /** While a push holds clients_map_mutex its candidates are live; the client it has chosen
      is live or was removed after the pushing thread's own client. */
  ghost predicate TargetOk(s: State, t: Tid)
    requires t in s.threads
  {
    s.threads[t].Push? ==>
      match s.threads[t].stage
      case Scan(_, best) => best.Some? ==> InMap(s, best.value)
      case WantCur(cur, _, best) => InMap(s, cur) && (best.Some? ==> InMap(s, best.value))
      case HoldCur(cur, _, best) => InMap(s, cur) && (best.Some? ==> InMap(s, best.value))
      case WantChosen(o) => ChosenOk(s, t, o)
      case HoldChosen(o) => ChosenOk(s, t, o)
      case _ => true
  }

  ghost predicate ChosenOk(s: State, t: Tid, o: Tid) {
    && o in s.objs
    && (t in s.removedAt && o in s.removedAt ==> s.removedAt[t] < s.removedAt[o])
  }

  ghost predicate TargetsOk(s: State) { forall t | t in s.threads :: TargetOk(s, t) }

  /** The pushing thread's own step. */
  lemma PushTarget(s: State, t: Tid, c: Choice)
    requires ThreadsOk(s) && t in s.threads && s.threads[t].Push? && TargetOk(s, t) && Wants(t, s.threads[t]).None?
    ensures var (pc, e) := Decide(s, t, s.threads[t], c);
            TargetOk(Perform(s, t, e, pc), t)
  {
    hide LocAfter, StatusAfter, UndoAfter, ListsAfter, ClientsAfter, ObjsAfter, Held, ThreadsOk, DecidePush, TargetOk, Loaded;
    var Push(caller, x, k, stage) := s.threads[t];
    var (pc, e) := Decide(s, t, s.threads[t], c);
    PushTargets(s, t, caller, x, k, stage, c);
    QuietObjs(s, t, e);
    TargetLooks(s.(threads := s.threads[t := pc]), Perform(s, t, e, pc), t);
  }

  /** The client a push looks at or settles on next, as the maps are before the step. */
  lemma PushTargets(s: State, t: Tid, caller: Caller, x: SolutionId, k: Compiler, stage: Stage, c: Choice)
    requires ThreadsOk(s) && t in s.threads && s.threads[t] == Push(caller, x, k, stage) && TargetOk(s, t) && StageWants(stage, k).None?
    ensures var (pc, e) := DecidePush(s, caller, x, k, stage, c);
            && TargetOk(s.(threads := s.threads[t := pc]), t)
            && (e.Nothing? || e.MarkFailure? || e.Deliver?)
  {
    hide ThreadsOk;
    if stage.Scan? && stage.i < |ListFor(s, k)| && ListFor(s, k)[stage.i] in s.clients { MapGives(s, ListFor(s, k)[stage.i]); }
  }

  lemma TargetLooks(s: State, s': State, t: Tid)
    requires t in s.threads && TargetOk(s, t) && t in s'.threads && s'.threads[t] == s.threads[t]
    requires s'.objs.Keys == s.objs.Keys && s'.removedAt == s.removedAt
    ensures TargetOk(s', t)
  {
  }

  lemma MapGives(s: State, id: ClientId)
    requires ThreadsOk(s) && id in s.clients
    ensures InMap(s, s.clients[id])
  {
    assert ThreadOk(s, s.clients[id]);
  }

  /** The chosen client is another one. */
  lemma DeliverTarget(s: State, t: Tid, o: Tid)
    requires ThreadsOk(s) && TargetsOk(s) && t in s.threads && s.threads[t].Push? && s.threads[t].stage == HoldChosen(o)
    ensures o in s.objs && o != t
  {
    ThreadsGive(s, t);
    assert TargetOk(s, t);
  }

  /** A step of another thread. */
  lemma OtherTarget(s: State, s': State, u: Tid)
    requires u in s.threads && TargetOk(s, u) && u in s'.threads && s'.threads[u] == s.threads[u]
    requires s.objs.Keys <= s'.objs.Keys
    requires s'.removedAt == s.removedAt
    ensures TargetOk(s', u)
  {
  }

  lemma OtherTargetDrop(s: State, s': State, t: Tid, u: Tid)
    requires ThreadsOk(s) && MutexOk(s)
    requires t in s.threads && s.threads[t] == Running(RemClients) && u != t
    requires u in s.threads && TargetOk(s, u) && u in s'.threads && s'.threads[u] == s.threads[u]
    requires s'.objs == s.objs && s'.removedAt == s.removedAt[t := |s.removedAt|]
    ensures TargetOk(s', u)
  {
    hide ThreadsOk, Held, ClassOf;
    HoldsMap(t, s.threads[t]);
    HoldsMap(u, s.threads[u]);
    ThreadsGive(s, t);
    if u in s.removedAt { RemovedGives(s, u); }
  }

  lemma HoldsMap(t: Tid, pc: PC)
    ensures pc == Running(RemClients) ==> ClientsMap in Held(t, pc) && ClassOf(pc).Live?
    ensures pc.Push? && (pc.stage.Scan? || pc.stage.WantCur? || pc.stage.HoldCur?) ==> ClientsMap in Held(t, pc)
  {
  }

  lemma RemovedGives(s: State, u: Tid)
    requires ThreadsOk(s) && u in s.removedAt
    ensures u in s.threads && s.removedAt[u] < |s.removedAt|
  {
    assert ThreadOk(s, u);
  }

  lemma StepTargetsOk(s: State, l: Label)
    requires ThreadsOk(s) && MutexOk(s) && TargetsOk(s) && Enabled(s, l)
    ensures TargetsOk(Next(s, l))
  {
    hide Decide, ClassOf, Wants, Held, Got, ObjsAfter, LocAfter, StatusAfter, ListsAfter, ClientsAfter, ThreadsOk, MutexOk, TargetOk;
    var s' := Next(s, l);
    match l
    case Submit(_, _) =>
      forall u | u in s'.threads ensures TargetOk(s', u) { OtherTarget(s, s', u); }
    case Accept(t, ks) =>
      forall u | u in s'.threads ensures TargetOk(s', u) { if u != t { OtherTarget(s, s', u); } else { NotPush(s', u); } }
    case Acquire(t) =>
      forall u | u in s'.threads ensures TargetOk(s', u) { if u != t { OtherTarget(s, s', u); } else { GotTarget(s, t); } }
    case Act(t, c) =>
      ThreadsGive(s, t);
      var (pc, e) := Decide(s, t, s.threads[t], c);
      DecideClass(s, t, s.threads[t], c);
      OtherIds(s, t, e);
      forall u | u in s'.threads ensures TargetOk(s', u) {
        if u == t {
          if s.threads[t].Push? { PushTarget(s, t, c); } else { StartTarget(s, s', t, c); }
        } else if e.DropClient? {
          DropObjs(s, t);
          OtherTargetDrop(s, s', t, u);
        } else {
          OtherTarget(s, s', u);
        }
      }
  }

  lemma DropObjs(s: State, t: Tid)
    ensures ObjsAfter(s, t, DropClient) == s.objs
  {
  }

  lemma NotPush(s: State, t: Tid)
    requires t in s.threads && !s.threads[t].Push?
    ensures TargetOk(s, t)
  {
  }

  lemma GotTarget(s: State, t: Tid)
    requires t in s.threads && TargetOk(s, t)
    ensures TargetOk(Goto(s, t, Got(s, s.threads[t])), t)
  {
  }

  lemma StartTarget(s: State, s': State, t: Tid, c: Choice)
    requires t in s.threads && !s.threads[t].Push? && t in s'.threads && s'.threads[t] == Decide(s, t, s.threads[t], c).0
    ensures TargetOk(s', t)
  {
  }

  // ---- The invariant of every run ----

  ghost predicate Inv(s: State) { ThreadsOk(s) && MutexOk(s) && IndexOk(s) && TargetsOk(s) }

  lemma StepInv(s: State, l: Label)
    requires Inv(s) && Enabled(s, l)
    ensures Inv(Next(s, l))
  {
    hide ThreadsOk, MutexOk, IndexOk, TargetsOk, Enabled, Next;
    StepThreadsOk(s, l);
    StepMutexOk(s, l);
    StepIndexOk(s, l);
    StepTargetsOk(s, l);
  }

  lemma InitInv()
    ensures Inv(Init())
  {
  }

  lemma {:induction false} RunInv(states: seq<State>, labels: seq<Label>, n: nat)
    requires Run(states, labels) && n < |states|
    ensures Inv(states[n])
  {
    hide Inv, Enabled, Next, Init;
    if n == 0 {
      InitInv();
    } else {
      RunInv(states, labels, n - 1);
      assert Enabled(states[n - 1], labels[n - 1]) && states[n - 1 + 1] == Next(states[n - 1], labels[n - 1]);
      StepInv(states[n - 1], labels[n - 1]);
    }
  }

  /** Index consistency: in every state of every run each id in a compiler's list is in
      clients_map, so a push never meets the INCONSISTENCY branch. */
  lemma IndexConsistent(states: seq<State>, labels: seq<Label>, n: nat, t: Tid, i: nat, best: Option<Tid>)
    requires Run(states, labels) && n < |states|
    ensures Indexed(states[n])
    ensures var s := states[n];
            t in s.threads && s.threads[t].Push? && s.threads[t].stage == Scan(i, best) && i < |ListFor(s, s.threads[t].k)| ==>
              Decide(s, t, s.threads[t], Go).0.stage.WantCur?
  {
    hide Run;
    RunInv(states, labels, n);
    var s := states[n];
    IndexGives(s, POLLER);
    if t in s.threads && s.threads[t].Push? && s.threads[t].stage == Scan(i, best) && i < |ListFor(s, s.threads[t].k)| {
      assert s.lists[s.threads[t].k][i] in s.clients;
    }
  }

  // ---- Deadlock freedom ----

  /** The order in which mutexes are taken. Mutexes of removed clients come before
      clients_map_mutex, in the order of the removals; those of live clients come last. */
  function Rank(s: State, l: Lock): nat {
    match l
    case CompilersMap => 0
    case ClientsMap => |s.removedAt| + 1
    case ListOf(_) => |s.removedAt| + 2
    case ClientMutex(o) => if o in s.removedAt then 1 + s.removedAt[o] else |s.removedAt| + 3
    case Db => |s.removedAt| + 4
  }

  /** Every thread asks only for mutexes above all it holds. */
  lemma AsksUpwards(s: State, t: Tid)
    requires ThreadsOk(s) && TargetsOk(s) && t in s.threads && Wants(t, s.threads[t]).Some?
    ensures forall h | h in Held(t, s.threads[t]) :: Rank(s, h) < Rank(s, Wants(t, s.threads[t]).value)
  {
    hide ThreadsOk;
    match s.threads[t]
    case Entering(_, _) =>
    case Running(step) =>
    case Removing(_) =>
    case Poll(_) =>
    case Push(caller, x, k, stage) =>
      ThreadsGive(s, t);
      assert TargetOk(s, t);
      if stage.WantChosen? && stage.o in s.removedAt { RemovedGives(s, stage.o); }
      PushAsksUpwards(s, t, caller, x, k, stage);
  }

  lemma PushAsksUpwards(s: State, t: Tid, caller: Caller, x: SolutionId, k: Compiler, stage: Stage)
    requires t in s.threads && s.threads[t] == Push(caller, x, k, stage) && ThreadOk(s, t) && TargetOk(s, t)
    requires StageWants(stage, k).Some?
    requires stage.WantChosen? && stage.o in s.removedAt ==> s.removedAt[stage.o] < |s.removedAt|
    ensures forall h | h in CallerHeld(t, caller) + StageHeld(stage, k) :: Rank(s, h) < Rank(s, StageWants(stage, k).value)
  {
    hide Rank;
    var w := StageWants(stage, k).value;
    StageRanks(s, k, stage);
    if caller.ByRemover? { CallerRank(s, t, caller, x, k, stage); }
  }

  lemma StageRanks(s: State, k: Compiler, stage: Stage)
    requires StageWants(stage, k).Some?
    requires stage.WantCur? ==> stage.cur !in s.removedAt
    ensures forall h | h in StageHeld(stage, k) :: Rank(s, h) < Rank(s, StageWants(stage, k).value)
  {
  }

  lemma CallerRank(s: State, t: Tid, caller: Caller, x: SolutionId, k: Compiler, stage: Stage)
    requires t in s.threads && s.threads[t] == Push(caller, x, k, stage) && ThreadOk(s, t) && TargetOk(s, t) && caller.ByRemover?
    requires StageWants(stage, k).Some?
    ensures Rank(s, ClientMutex(t)) < Rank(s, StageWants(stage, k).value)
  {
  }

  /** t is blocked on a mutex that u holds. */
  ghost predicate WaitsFor(s: State, t: Tid, u: Tid) {
    && t in s.threads && u in s.threads
    && Wants(t, s.threads[t]).Some? && Wants(t, s.threads[t]).value in Held(u, s.threads[u])
  }

  ghost predicate Cycle(s: State, c: seq<Tid>) {
    && |c| > 0
    && (forall i {:trigger c[i]} | 0 <= i < |c| - 1 :: WaitsFor(s, c[i], c[i + 1]))
    && WaitsFor(s, c[|c| - 1], c[0])
  }

  function WantedRank(s: State, t: Tid): nat {
    if t in s.threads && Wants(t, s.threads[t]).Some? then Rank(s, Wants(t, s.threads[t]).value) else 0
  }

  /** Each member of a cycle waits for the next one. */
  lemma CycleLink(s: State, c: seq<Tid>, n: nat)
    requires Cycle(s, c) && n < |c|
    ensures WaitsFor(s, c[n], if n + 1 < |c| then c[n + 1] else c[0])
  {
    hide WaitsFor;
  }

  lemma {:induction false} RanksRise(s: State, c: seq<Tid>, n: nat)
    requires Inv(s) && Cycle(s, c) && n < |c|
    ensures WantedRank(s, c[0]) + n <= WantedRank(s, c[n])
  {
    hide Inv, Cycle, WantedRank, Rank, Wants, Held;
    if n > 0 {
      RanksRise(s, c, n - 1);
      CycleLink(s, c, n - 1);
      CycleLink(s, c, n);
      WaitRises(s, c[n - 1], c[n]);
    }
  }

  lemma WaitRises(s: State, t: Tid, u: Tid)
    requires Inv(s) && WaitsFor(s, t, u) && Wants(u, s.threads[u]).Some?
    ensures WantedRank(s, t) < WantedRank(s, u)
  {
    hide MutexOk, IndexOk, Held, Wants, Rank, ThreadsOk, TargetsOk;
    AsksUpwards(s, u);
  }

  /** No run reaches a cycle of threads that wait for each other's mutexes. */
  lemma NoDeadlock(states: seq<State>, labels: seq<Label>, n: nat, c: seq<Tid>)
    requires Run(states, labels) && n < |states|
    ensures !Cycle(states[n], c)
  {
    hide Run, Inv, WantedRank, Rank, Wants, Held;
    RunInv(states, labels, n);
    var s := states[n];
    if Cycle(s, c) {
      RanksRise(s, c, |c| - 1);
      CycleLink(s, c, |c| - 1);
      CycleLink(s, c, 0);
      WaitRises(s, c[|c| - 1], c[0]);
    }
  }

  /** A client that is about to be numbered gets an id that is not in use. */
  ghost predicate IdReady(s: State) {
    forall t | t in s.threads && s.threads[t].Entering? && s.threads[t].holding :: s.lastId !in s.clients
  }

  /** A thread that holds a mutex and is not blocked has a step. */
  lemma HolderMoves(s: State, t: Tid)
    requires t in s.threads && Held(t, s.threads[t]) != {} && Wants(t, s.threads[t]).None?
    requires IdReady(s)
    ensures exists c :: Enabled(s, Act(t, c))
  {
    var pc := s.threads[t];
    if pc.Running? && pc.step.RemCompilers? && pc.step.todo != {} {
      var k :| k in pc.step.todo;
      assert Enabled(s, Act(t, NextList(k)));
    } else if pc.Poll? && pc.poll.PollHold? {
      assert Enabled(s, Act(t, Fail));
    } else {
      assert Enabled(s, Act(t, Go));
    }
  }

  /** Whenever a thread is blocked, some thread that is not blocked can move: the chain of
      holders rises in rank and so ends. */
  lemma {:induction false} BlockedImpliesProgress(s: State, t: Tid)
    requires Inv(s) && t in s.threads && Wants(t, s.threads[t]).Some? && IdReady(s)
    ensures exists l :: Enabled(s, l) && (l.Acquire? || l.Act?)
    decreases |s.removedAt| + 5 - WantedRank(s, t)
  {
    hide Inv, Held, Wants, IdReady;
    if Free(s, Wants(t, s.threads[t]).value) {
      assert Enabled(s, Acquire(t));
    } else {
      var u :| u in s.threads && Wants(t, s.threads[t]).value in Held(u, s.threads[u]);
      assert WaitsFor(s, t, u);
      if Wants(u, s.threads[u]).Some? {
        WaitRises(s, t, u);
        RankBound(s, u);
        BlockedImpliesProgress(s, u);
      } else {
        HolderMoves(s, u);
      }
    }
  }

  lemma RankBound(s: State, t: Tid)
    requires Inv(s)
    ensures WantedRank(s, t) < |s.removedAt| + 5
  {
    hide MutexOk, IndexOk, TargetsOk, Held;
    if t in s.threads && Wants(t, s.threads[t]).Some? && Wants(t, s.threads[t]).value.ClientMutex? {
      var o := Wants(t, s.threads[t]).value.o;
      if o in s.removedAt { RemovedGives(s, o); }
    }
  }
}
