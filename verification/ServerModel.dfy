/** The dispatcher of server.c as a step machine. Threads are the database poller and one
    client_loop per connection; the steps are lock acquisitions and the code between them,
    so that every interleaving of registration, processing, results, pushing and removal
    is a run. A client object is named by the thread whose client_loop created it. */
module ServerModel {
  import opened Options

  type Tid = nat
  type ClientId = int
  type Compiler = nat
  type SolutionId = nat

  const POLLER: Tid := 0

  datatype Lock =
    | ClientsMap
    | CompilersMap
    | ListOf(k: Compiler)
    | ClientMutex(o: Tid)
    | Db

  datatype Client = Client(id: ClientId, queue: seq<SolutionId>, checking: Option<SolutionId>)

  /** Whose push_solution call this is: the poller's, or that of a thread removing its own
      client (which still holds its own mutex); `fromChecking` tells which of its solutions. */
  datatype Caller = ByPoller(pending: seq<SolutionId>) | ByRemover(fromChecking: bool)

  /** Where a push_solution call stands. */
  datatype Stage =
    | Find
    | WantClients
    | WantList
    | Scan(i: nat, best: Option<Tid>)
    | WantCur(cur: Tid, i: nat, best: Option<Tid>)
    | HoldCur(cur: Tid, i: nat, best: Option<Tid>)
    | WantChosen(o: Tid)
    | HoldChosen(o: Tid)

  /** client_loop while its client is in clients_map, including the first half of remove_client. */
  datatype ClientStep =
    | RegWantCompilers(ks: seq<Compiler>)
    | RegCompilers(ks: seq<Compiler>)
    | Idle
    | ProcWant
    | ProcHold
    | PostWant(sid: SolutionId, code: nat)
    | PostHold(sid: SolutionId, code: nat)
    | ClearWant
    | ClearHold
    | RemWantCompilers
    | RemCompilers(todo: set<Compiler>)
    | RemWantList(k: Compiler, todo: set<Compiler>)
    | RemList(k: Compiler, todo: set<Compiler>)
    | RemWantClients
    | RemClients

  /** remove_client after HASH_DEL(clients_map, client). */
  datatype DrainStep = DrainWant | DrainStart | DrainClear | Drain | Done

  /** poll_database, and solutions_extract_new query by query. */
  datatype PollStep =
    | PollIdle
    | PollWant
    | PollHold                                    // before the select
    | Selected(ids: seq<SolutionId>)              // before "start transaction"
    | Marking(ids: seq<SolutionId>, done: nat)    // before an update, or the commit
    | RollingBack(marked: seq<SolutionId>)        // before the rollback, after a failed update
    | Batch(pending: seq<SolutionId>)

  datatype PC =
    | Entering(ks: seq<Compiler>, holding: bool)   // client_loop before its client is in clients_map
    | Running(step: ClientStep)
    | Removing(drain: DrainStep)
    | Poll(poll: PollStep)                         // poll_database
    | Push(caller: Caller, x: SolutionId, k: Compiler, stage: Stage)

  /** History: where each extracted solution is. */
  datatype Loc =
    | Pending
    | Hand(t: Tid)
    | Queue(o: Tid)
    | Slot(o: Tid)
    | Dropped   // nobody has it any more

  datatype State = State(
    compilerOf: map<SolutionId, Compiler>,   // the rows of the solutions table
    status: map<SolutionId, nat>,            // and their `checking` column, as the connection sees it
    undo: Option<map<SolutionId, nat>>,      // inside a transaction: what it has overwritten
    objs: map<Tid, Client>,                  // client_t objects, also after their removal
    clients: map<ClientId, Tid>,             // clients_map
    lists: map<Compiler, seq<ClientId>>,     // compilers_map with each clients_list
    lastId: ClientId,
    threads: map<Tid, PC>,
    removedAt: map<Tid, nat>,                // history: order of the deletions from clients_map
    loc: map<SolutionId, Loc>)

  datatype Choice =
    | Go
    | Fail
    | Process
    | Report(sid: SolutionId, code: nat)
    | Leave
    | NextList(k: Compiler)
    | Extract(ids: seq<SolutionId>)
    | Undone      // the query fails and the server undoes the open transaction

  datatype Label =
    | Submit(sid: SolutionId, k: Compiler)   // a new row with checking = 0
    | Accept(t: Tid, ks: seq<Compiler>)      // a connection whose handshake listed ks
    | Acquire(t: Tid)                        // pthread_mutex_lock returns
    | Act(t: Tid, c: Choice)                 // the code up to the next lock request

  function Init(): State {
    State(map[], map[], None, map[], map[], map[], 1, map[POLLER := Poll(PollIdle)], map[], map[])
  }

  /** The mutexes a thread holds, by where it stands. */
  function Held(t: Tid, pc: PC): set<Lock> {
    match pc
    case Entering(_, holding) => if holding then {ClientsMap} else {}
    case Running(step) => StepHeld(t, step)
    case Removing(drain) => if drain.DrainWant? || drain.Done? then {} else {ClientMutex(t)}
    case Poll(poll) => if poll.PollHold? || poll.Selected? || poll.Marking? || poll.RollingBack? then {Db} else {}
    case Push(caller, _, k, stage) => CallerHeld(t, caller) + StageHeld(stage, k)
  }

  function StepHeld(t: Tid, step: ClientStep): set<Lock> {
    match step
    case RegCompilers(_) => {CompilersMap}
    case ProcHold => {ClientMutex(t)}
    case PostHold(_, _) => {Db}
    case ClearHold => {ClientMutex(t)}
    case RemCompilers(_) => {CompilersMap}
    case RemWantList(_, _) => {CompilersMap}
    case RemList(k, _) => {CompilersMap, ListOf(k)}
    case RemClients => {ClientsMap}
    case _ => {}
  }

  function CallerHeld(t: Tid, caller: Caller): set<Lock> { if caller.ByRemover? then {ClientMutex(t)} else {} }

  function StageHeld(stage: Stage, k: Compiler): set<Lock> {
    match stage
    case WantList => {ClientsMap}
    case Scan(_, _) => {ClientsMap, ListOf(k)}
    case WantCur(_, _, _) => {ClientsMap, ListOf(k)}
    case HoldCur(cur, _, _) => {ClientsMap, ListOf(k), ClientMutex(cur)}
    case HoldChosen(o) => {ClientMutex(o)}
    case _ => {}
  }

  /** The mutex a thread is blocked on. */
  function Wants(t: Tid, pc: PC): Option<Lock> {
    match pc
    case Entering(_, holding) => if holding then None else Some(ClientsMap)
    case Running(step) => StepWants(t, step)
    case Removing(drain) => if drain.DrainWant? then Some(ClientMutex(t)) else None
    case Poll(poll) => if poll.PollWant? then Some(Db) else None
    case Push(_, _, k, stage) => StageWants(stage, k)
  }

  function StepWants(t: Tid, step: ClientStep): Option<Lock> {
    match step
    case RegWantCompilers(_) => Some(CompilersMap)
    case ProcWant => Some(ClientMutex(t))
    case PostWant(_, _) => Some(Db)
    case ClearWant => Some(ClientMutex(t))
    case RemWantCompilers => Some(CompilersMap)
    case RemWantList(k, _) => Some(ListOf(k))
    case RemWantClients => Some(ClientsMap)
    case _ => None
  }

  function StageWants(stage: Stage, k: Compiler): Option<Lock> {
    match stage
    case WantClients => Some(ClientsMap)
    case WantList => Some(ListOf(k))
    case WantCur(cur, _, _) => Some(ClientMutex(cur))
    case WantChosen(o) => Some(ClientMutex(o))
    case _ => None
  }

  /** Where the thread stands once it has the mutex it wanted. */
  function Got(s: State, pc: PC): PC {
    match pc
    case Entering(ks, _) => Entering(ks, true)
    case Running(step) => Running(StepGot(s, step))
    case Removing(drain) => if drain.DrainWant? then Removing(DrainStart) else pc
    case Poll(poll) => if poll.PollWant? then Poll(PollHold) else pc
    case Push(c, x, k, stage) => Push(c, x, k, StageGot(stage))
  }

  function StepGot(s: State, step: ClientStep): ClientStep {
    match step
    case RegWantCompilers(ks) => RegCompilers(ks)
    case ProcWant => ProcHold
    case PostWant(sid, code) => PostHold(sid, code)
    case ClearWant => ClearHold
    case RemWantCompilers => RemCompilers(s.lists.Keys)
    case RemWantList(k, todo) => RemList(k, todo)
    case RemWantClients => RemClients
    case _ => step
  }

  function StageGot(stage: Stage): Stage {
    match stage
    case WantClients => WantList
    case WantList => Scan(0, None)
    case WantCur(cur, i, best) => HoldCur(cur, i, best)
    case WantChosen(o) => HoldChosen(o)
    case _ => stage
  }

  ghost predicate Free(s: State, l: Lock) {
    forall u | u in s.threads :: l !in Held(u, s.threads[u])
  }

  // ---- The code between lock requests ----

  /** What a piece of code writes, besides the thread's own position. */
  datatype Effect =
    | Nothing
    | AddClient                             // client_create, HASH_ADD_INT(clients_map), last_client_id++
    | Enlist(k: Compiler)                   // HASH_ADD_INT(compiler->clients_list)
    | Delist(k: Compiler)                   // HASH_ITER with HASH_DEL of the own id
    | DropClient                            // HASH_DEL(clients_map), last_client_id--
    | TakeNext                              // checking_solution = queue_pop(solutions_queue)
    | ClearSlot                             // OP_RESULT: checking_solution = NULL
    | ForgetSlot                            // remove_client: checking_solution = NULL
    | TakeBack                              // remove_client: queue_pop
    | Mark(sid: SolutionId)                 // solution_post_result of a reported result
    | FailedPost                            // the same, failing and undoing the open transaction
    | MarkFailure(x: SolutionId, c: Choice) // solution_post_result(x, 0, "FL"), which may fail
    | Deliver(x: SolutionId, o: Tid)        // queue_push(most_free_client->solutions_queue)
    | BeginTx                               // "start transaction", which commits what is open
    | MarkRow(x: SolutionId)                // update ... set checking = 1
    | CommitRows(ids: seq<SolutionId>)      // "commit"; the rows are handed out
    | UndoTx                                // a query of the poller fails and undoes the transaction
    | GiveUp(ids: seq<SolutionId>, undone: bool)   // the extraction ends in a failure, after marking these
    | TakePending(x: SolutionId)

  function ListFor(s: State, k: Compiler): seq<ClientId> { if k in s.lists then s.lists[k] else [] }

  function Me(s: State, t: Tid): Client { if t in s.objs then s.objs[t] else Client(0, [], None) }

  /** The load expression of push_solution: nonzero count plus busy flag. */
  predicate Loaded(s: State, o: Tid) { Me(s, o).queue != [] || Me(s, o).checking.Some? }

  /** The call push_solution(x): the solution carries its compiler id. */
  function StartPush(s: State, caller: Caller, x: SolutionId): PC {
    Push(caller, x, if x in s.compilerOf then s.compilerOf[x] else 0, Find)
  }

  /** Where push_solution returns to. */
  function Return(caller: Caller): PC {
    match caller
    case ByPoller(pending) => Poll(Batch(pending))
    case ByRemover(fromChecking) => Removing(if fromChecking then DrainClear else Drain)
  }

  /** push_solution, server.c:356-409. */
  function DecidePush(s: State, caller: Caller, x: SolutionId, k: Compiler, stage: Stage, c: Choice): (PC, Effect) {
    match stage
    case Find =>
      if k !in s.lists then (Return(caller), MarkFailure(x, c))
      else (Push(caller, x, k, WantClients), Nothing)
    case Scan(i, best) =>
      if i < |ListFor(s, k)| then
        var id := ListFor(s, k)[i];
        if id in s.clients then (Push(caller, x, k, WantCur(s.clients[id], i, best)), Nothing)
        else (Push(caller, x, k, Scan(i + 1, best)), Nothing)        // INCONSISTENCY
      else if best.None? then (Return(caller), MarkFailure(x, c))
      else (Push(caller, x, k, WantChosen(best.value)), Nothing)
    case HoldCur(cur, i, best) =>
      if Loaded(s, cur) then (Push(caller, x, k, Scan(i + 1, Some(cur))), Nothing)
      else (Push(caller, x, k, WantChosen(cur)), Nothing)
    case HoldChosen(o) => (Return(caller), Deliver(x, o))
    case _ => (Push(caller, x, k, stage), Nothing)
  }

  /** client_loop, process_solutions and the first half of remove_client, server.c:141-283 and 411-442. */
  function DecideRunning(s: State, t: Tid, step: ClientStep, c: Choice): (PC, Effect) {
    match step
    case RegCompilers(ks) =>
      if ks == [] then (Running(Idle), Nothing) else (Running(RegCompilers(ks[1..])), Enlist(ks[0]))
    case Idle =>
      (match c
       case Process => (Running(ProcWant), Nothing)
       case Report(sid, code) => (Running(PostWant(sid, code)), Nothing)
       case _ => (if Me(s, t).id in s.clients then Running(RemWantCompilers) else Removing(Done), Nothing))
    case ProcHold => (Running(Idle), if Me(s, t).queue == [] then Nothing else TakeNext)
    case PostHold(sid, code) =>
      (Running(ClearWant), if code > 7 || c.Fail? then Nothing else if c.Go? then Mark(sid) else FailedPost)
    case ClearHold => (Running(Idle), ClearSlot)
    case RemCompilers(todo) =>
      (match c
       case NextList(k) => (Running(RemWantList(k, todo)), Nothing)
       case _ => (Running(RemWantClients), Nothing))
    case RemList(k, todo) => (Running(RemCompilers(todo - {k})), Delist(k))
    case RemClients => (Removing(DrainWant), DropClient)
    case _ => (Running(step), Nothing)
  }

  /** The second half of remove_client, server.c:444-459. */
  function DecideRemoving(s: State, t: Tid, drain: DrainStep): (PC, Effect) {
    var me := Me(s, t);
    match drain
    case DrainStart =>
      (if me.checking.Some? then StartPush(s, ByRemover(true), me.checking.value) else Removing(Drain), Nothing)
    case DrainClear => (Removing(Drain), ForgetSlot)
    case Drain =>
      if me.queue == [] then (Removing(Done), Nothing) else (StartPush(s, ByRemover(false), me.queue[0]), TakeBack)
    case _ => (Removing(drain), Nothing)
  }

  /** poll_database, server.c:333-350, with solutions_extract_new, solutions_db.c:32-91. */
  function DecidePoll(s: State, poll: PollStep, c: Choice): (PC, Effect) {
    match poll
    case PollIdle => (Poll(PollWant), Nothing)
    case PollHold =>
      (match c
       case Extract(ids) => (Poll(Selected(ids)), Nothing)
       case Undone => (Poll(PollIdle), UndoTx)
       case _ => (Poll(PollIdle), Nothing))
    case Selected(ids) =>
      if ids == [] then (Poll(PollIdle), Nothing)
      else
        (match c
         case Go => (Poll(Marking(ids, 0)), BeginTx)
         case Undone => (Poll(PollIdle), UndoTx)
         case _ => (Poll(PollIdle), Nothing))
    case Marking(ids, done) =>
      if done < |ids| then
        (match c
         case Go => (Poll(Marking(ids, done + 1)), MarkRow(ids[done]))
         case Undone => (Poll(RollingBack(ids[..done])), UndoTx)
         case _ => (Poll(RollingBack(ids[..done])), Nothing))
      else
        (match c
         case Go => (Poll(Batch(ids)), CommitRows(ids))
         case _ => (Poll(PollIdle), GiveUp(ids, c.Undone?)))
    case RollingBack(marked) =>
      (Poll(PollIdle), GiveUp(marked, !c.Fail?))
    case Batch(pending) =>
      if pending == [] then (Poll(PollIdle), Nothing)
      else (StartPush(s, ByPoller(pending[1..]), pending[0]), TakePending(pending[0]))
    case _ => (Poll(poll), Nothing)
  }

  function Decide(s: State, t: Tid, pc: PC, c: Choice): (PC, Effect) {
    match pc
    case Entering(ks, _) => (Running(RegWantCompilers(ks)), AddClient)
    case Running(step) => DecideRunning(s, t, step, c)
    case Removing(drain) => DecideRemoving(s, t, drain)
    case Poll(poll) => DecidePoll(s, poll, c)
    case Push(caller, x, k, stage) => DecidePush(s, caller, x, k, stage, c)
  }

  // ---- Effects ----

  /** HASH_ITER with HASH_DEL of every entry that carries the id. */
  function Without(l: seq<ClientId>, id: ClientId): (r: seq<ClientId>)
    ensures id !in r
    ensures forall y | y != id :: y in l <==> y in r
  {
    if l == [] then []
    else if l[0] == id then Without(l[1..], id)
    else
      assert forall y :: y in l <==> y == l[0] || y in l[1..];
      [l[0]] + Without(l[1..], id)
  }

  /** The positions from p on of the entries other than id. */
  function Kept(l: seq<ClientId>, id: ClientId, p: nat): seq<nat>
    requires p <= |l|
    decreases |l| - p
  {
    if p == |l| then [] else if l[p] == id then Kept(l, id, p + 1) else [p] + Kept(l, id, p + 1)
  }

  lemma {:induction false} KeptAre(l: seq<ClientId>, id: ClientId, p: nat, q: nat)
    requires p <= |l|
    ensures q in Kept(l, id, p) <==> p <= q < |l| && l[q] != id
    decreases |l| - p
  {
    if p < |l| { KeptAre(l, id, p + 1, q); }
  }

  lemma {:induction false} KeptRise(l: seq<ClientId>, id: ClientId, p: nat)
    requires p <= |l|
    ensures forall i | 0 <= i < |Kept(l, id, p)| :: p <= Kept(l, id, p)[i] < |l|
    ensures forall i, j | 0 <= i < j < |Kept(l, id, p)| :: Kept(l, id, p)[i] < Kept(l, id, p)[j]
    decreases |l| - p
  {
    if p < |l| { KeptRise(l, id, p + 1); }
  }

  lemma {:induction false} WithoutIsKept(l: seq<ClientId>, id: ClientId, p: nat)
    requires p <= |l|
    ensures |Without(l[p..], id)| == |Kept(l, id, p)|
    ensures forall i | 0 <= i < |Kept(l, id, p)| :: Kept(l, id, p)[i] < |l| && Without(l[p..], id)[i] == l[Kept(l, id, p)[i]]
    decreases |l| - p
  {
    if p < |l| {
      assert l[p..][1..] == l[p + 1..];
      WithoutIsKept(l, id, p + 1);
    }
  }

  /** The ids that are left are the entries other than id, in their old order: `kept` are their old
      positions. */
  lemma WithoutKeepsOrder(l: seq<ClientId>, id: ClientId) returns (kept: seq<nat>)
    ensures |kept| == |Without(l, id)|
    ensures forall i | 0 <= i < |kept| :: kept[i] < |l| && Without(l, id)[i] == l[kept[i]]
    ensures forall i, j | 0 <= i < j < |kept| :: kept[i] < kept[j]
    ensures forall p: nat | p < |l| :: p in kept <==> l[p] != id
  {
    hide Without, Kept;
    kept := Kept(l, id, 0);
    assert l[0..] == l;
    WithoutIsKept(l, id, 0);
    KeptRise(l, id, 0);
    forall p: nat | p < |l| ensures p in kept <==> l[p] != id { KeptAre(l, id, 0, p); }
  }

  /** remove_client has run to its end: client_free was called on the object. */
  predicate Freed(s: State, o: Tid) { o !in s.objs || (o in s.threads && s.threads[o] == Removing(Done)) }

  function Located(loc: map<SolutionId, Loc>, x: Option<SolutionId>, l: Loc): map<SolutionId, Loc> {
    if x.Some? then loc[x.value := l] else loc
  }

  function ObjsAfter(s: State, t: Tid, e: Effect): map<Tid, Client> {
    var me := Me(s, t);
    match e
    case AddClient => s.objs[t := Client(s.lastId, [], None)]
    case TakeNext =>
      if me.queue == [] then s.objs else s.objs[t := me.(queue := me.queue[1..], checking := Some(me.queue[0]))]
    case ClearSlot => s.objs[t := me.(checking := None)]
    case ForgetSlot => s.objs[t := me.(checking := None)]
    case TakeBack => if me.queue == [] then s.objs else s.objs[t := me.(queue := me.queue[1..])]
    case Deliver(x, o) => if Freed(s, o) then s.objs else s.objs[o := s.objs[o].(queue := s.objs[o].queue + [x])]
    case _ => s.objs
  }

  function ClientsAfter(s: State, t: Tid, e: Effect): map<ClientId, Tid> {
    match e
    case AddClient => s.clients[s.lastId := t]
    case DropClient => s.clients - {Me(s, t).id}
    case _ => s.clients
  }

  function ListsAfter(s: State, t: Tid, e: Effect): map<Compiler, seq<ClientId>> {
    match e
    case Enlist(k) => s.lists[k := ListFor(s, k) + [Me(s, t).id]]
    case Delist(k) => s.lists[k := Without(ListFor(s, k), Me(s, t).id)]
    case _ => s.lists
  }

  /** The server undoes the open transaction, if there is one. */
  predicate UndoesTx(e: Effect) {
    e.UndoTx? || e.FailedPost? || (e.MarkFailure? && e.c.Undone?) || (e.GiveUp? && e.undone)
  }

  function StatusAfter(s: State, e: Effect): map<SolutionId, nat> {
    if UndoesTx(e) then if s.undo.Some? then s.status + s.undo.value else s.status
    else
      match e
      case Mark(sid) => if sid in s.status then s.status[sid := 2] else s.status
      case MarkFailure(x, c) => if c.Go? && x in s.status then s.status[x := 2] else s.status
      case MarkRow(x) => if x in s.status then s.status[x := 1] else s.status
      case _ => s.status
  }

  /** Writing row x in a transaction keeps what was there before it. */
  function Overwritten(s: State, x: SolutionId): Option<map<SolutionId, nat>> {
    if s.undo.Some? && x in s.status && x !in s.undo.value then Some(s.undo.value[x := s.status[x]]) else s.undo
  }

  function UndoAfter(s: State, e: Effect): Option<map<SolutionId, nat>> {
    if UndoesTx(e) then None
    else
      match e
      case Mark(sid) => Overwritten(s, sid)
      case MarkFailure(x, c) => if c.Go? then Overwritten(s, x) else s.undo
      case BeginTx => Some(map[])
      case MarkRow(x) => Overwritten(s, x)
      case CommitRows(_) => None
      case _ => s.undo
  }

  /** Rows that undoing the open transaction makes new again. */
  predicate NewAgain(s: State, x: SolutionId) { s.undo.Some? && x in s.undo.value && s.undo.value[x] == 0 }

  function Forgotten(s: State): map<SolutionId, Loc> { map x | x in s.loc && !NewAgain(s, x) :: s.loc[x] }

  /** Of the rows that a failed extraction has marked, those that stay marked. */
  function StillMarked(s: State, ids: seq<SolutionId>, undone: bool): set<SolutionId> {
    set x | x in ids && x in s.status && s.status[x] >= 1 && !(undone && NewAgain(s, x))
  }

  function LocAfter(s: State, t: Tid, e: Effect): map<SolutionId, Loc> {
    var me := Me(s, t);
    match e
    case TakeNext => if me.queue == [] then s.loc else Located(s.loc, me.checking, Dropped)[me.queue[0] := Slot(t)]
    case ClearSlot => Located(s.loc, me.checking, Dropped)
    case TakeBack => if me.queue == [] then s.loc else s.loc[me.queue[0] := Hand(t)]
    case MarkFailure(x, c) => (if c.Undone? then Forgotten(s) else s.loc)[x := Dropped]
    case FailedPost => Forgotten(s)
    case Deliver(x, o) => s.loc[x := if Freed(s, o) then Dropped else Queue(o)]
    case CommitRows(ids) => s.loc + map x | x in ids :: Pending
    case GiveUp(ids, undone) =>
      (if undone then Forgotten(s) else s.loc) + map x | x in StillMarked(s, ids, undone) :: Dropped
    case UndoTx => Forgotten(s)
    case TakePending(x) => s.loc[x := Hand(t)]
    case _ => s.loc
  }

  function Perform(s: State, t: Tid, e: Effect, pc: PC): State {
    State(s.compilerOf, StatusAfter(s, e), UndoAfter(s, e), ObjsAfter(s, t, e), ClientsAfter(s, t, e), ListsAfter(s, t, e),
          if e.AddClient? then s.lastId + 1 else if e.DropClient? then s.lastId - 1 else s.lastId,
          s.threads[t := pc],
          if e.DropClient? then s.removedAt[t := |s.removedAt|] else s.removedAt,
          LocAfter(s, t, e))
  }

  // ---- Steps ----

  ghost predicate ChoiceFits(s: State, pc: PC, c: Choice) {
    match pc
    case Entering(_, _) => c.Go? && s.lastId !in s.clients           // client ids are distinct
    case Running(step) =>
      (match step
       case Idle => c.Process? || c.Report? || c.Leave?
       case PostHold(_, _) => c.Go? || c.Fail? || c.Undone?
       case RemCompilers(todo) => (c.NextList? && c.k in todo) || (c.Go? && todo == {})
       case _ => c.Go?)
    case Poll(poll) =>
      (match poll
       case PollHold => c.Fail? || c.Undone? || (c.Extract? && FreshRows(s, c.ids))
       case Selected(_) => c.Go? || c.Fail? || c.Undone?
       case Marking(_, _) => c.Go? || c.Fail? || c.Undone?
       case RollingBack(_) => c.Go? || c.Fail? || c.Undone?
       case _ => c.Go?)
    case Push(_, _, _, _) => c.Go? || c.Fail? || c.Undone?
    case _ => c.Go?
  }

  /** The rows of `select * from solutions where checking = 0`, each once, in any order. */
  ghost predicate FreshRows(s: State, ids: seq<SolutionId>) {
    && (forall i, j | 0 <= i < j < |ids| :: ids[i] != ids[j])
    && (forall x :: x in ids <==> x in s.status && s.status[x] == 0)
  }

  ghost predicate Enabled(s: State, l: Label) {
    match l
    case Submit(sid, k) => sid !in s.compilerOf
    case Accept(t, ks) => t !in s.threads
    case Acquire(t) => t in s.threads && Wants(t, s.threads[t]).Some? && Free(s, Wants(t, s.threads[t]).value)
    case Act(t, c) =>
      && t in s.threads && Wants(t, s.threads[t]).None? && s.threads[t] != Removing(Done)
      && ChoiceFits(s, s.threads[t], c)
  }

  function Goto(s: State, t: Tid, pc: PC): State { s.(threads := s.threads[t := pc]) }

  function Next(s: State, l: Label): State {
    match l
    case Submit(sid, k) => s.(compilerOf := s.compilerOf[sid := k], status := s.status[sid := 0])
    case Accept(t, ks) => Goto(s, t, Entering(ks, false))
    case Acquire(t) => if t in s.threads then Goto(s, t, Got(s, s.threads[t])) else s
    case Act(t, c) =>
      if t !in s.threads then s
      else
        var (pc, e) := Decide(s, t, s.threads[t], c);
        Perform(s, t, e, pc)
  }

  /** A run of the server: each state follows from the one before by an enabled step. */
  ghost predicate Run(states: seq<State>, labels: seq<Label>) {
    && |states| == |labels| + 1
    && states[0] == Init()
    && forall i {:trigger labels[i]} | 0 <= i < |labels| :: Enabled(states[i], labels[i]) && states[i + 1] == Next(states[i], labels[i])
  }
}
