/** Who holds an extracted solution, in every run of the dispatcher. Everything is about one solution x,
    so that what goes wrong with one row does not touch the others. */
module ServerOwnership {
  import opened Options
  import opened ServerModel
  import opened ServerLocks
  import opened ServerRows

  // ---- Places ----

  /** remove_client has pushed its checking solution and not yet cleared the slot. */
  predicate Clearing(s: State, o: Tid) { o in s.threads && s.threads[o] == Removing(DrainClear) }

  predicate InBatch(pc: PC, x: SolutionId) {
    match pc
    case Poll(poll) => poll.Batch? && x in poll.pending
    case Push(caller, _, _, _) => caller.ByPoller? && x in caller.pending
    case _ => false
  }

  predicate InHand(pc: PC, x: SolutionId) { pc.Push? && pc.x == x && pc.caller != ByRemover(true) }

  /** Solution x really is at l: in the poller's batch, in a pushing thread's hand, in a
      client's queue or in its checking slot. */
  predicate Holds(s: State, l: Loc, x: SolutionId) {
    match l
    case Pending => POLLER in s.threads && InBatch(s.threads[POLLER], x)
    case Hand(t) => t in s.threads && InHand(s.threads[t], x)
    case Queue(o) => o in s.objs && x in s.objs[o].queue
    case Slot(o) => o in s.objs && s.objs[o].checking == Some(x) && !Clearing(s, o)
    case Dropped => false
  }

  predicate Gone(l: Loc) { l.Dropped? }

  /** The record agrees with the places, both ways. */
  ghost predicate Recorded(s: State, x: SolutionId) {
    && (forall l: Loc | Holds(s, l, x) :: x in s.loc && s.loc[x] == l)
    && (x in s.loc && !Gone(s.loc[x]) ==> Holds(s, s.loc[x], x))
  }

  /** What is known of a thread that removes its client. */
  ghost predicate HandOk(s: State, t: Tid)
    requires t in s.threads
  {
    match s.threads[t]
    case Push(caller, x, _, _) =>
      caller.ByRemover? ==> Me(s, t).checking == if caller.fromChecking then Some(x) else None
    case Removing(drain) =>
      && (drain.Drain? ==> Me(s, t).checking.None?)
      && (drain.Done? ==> Me(s, t).checking.None? && Me(s, t).queue == [])
    case _ => true
  }

  ghost predicate TidyOk(s: State) { forall t | t in s.threads :: HandOk(s, t) }

  /** x is at most once in the poller's batch. */
  ghost predicate BatchOnce(pc: PC, x: SolutionId) {
    match pc
    case Poll(poll) => poll.Batch? ==> Once(poll.pending, x)
    case Push(caller, y, _, _) => caller.ByPoller? ==> Once(caller.pending, x) && !(y == x && x in caller.pending)
    case _ => true
  }

  ghost predicate OnceOk(s: State, x: SolutionId) {
    && (forall o | o in s.objs :: Once(s.objs[o].queue, x))
    && (forall t | t in s.threads :: BatchOnce(s.threads[t], x))
  }

  ghost predicate OwnOk(s: State, x: SolutionId) { TidyOk(s) && Recorded(s, x) && OnceOk(s, x) }

  // ---- Moving solutions ----

  /** Where a step of thread t puts x, if anywhere. */
  function MoveOf(s: State, t: Tid, e: Effect, x: SolutionId): Option<Loc> {
    var me := Me(s, t);
    match e
    case TakeNext =>
      if me.queue == [] then None
      else if me.queue[0] == x then Some(Slot(t))
      else if me.checking == Some(x) then Some(Dropped)
      else None
    case ClearSlot => if me.checking == Some(x) then Some(Dropped) else None
    case TakeBack => if me.queue != [] && me.queue[0] == x then Some(Hand(t)) else None
    case MarkFailure(y, _) => if y == x then Some(Dropped) else None
    case Deliver(y, o) => if y == x then Some(if Freed(s, o) then Dropped else Queue(o)) else None
    case TakePending(y) => if y == x then Some(Hand(t)) else None
    case CommitRows(ids) => if x in ids then Some(Pending) else None
    case GiveUp(ids, undone) => if x in StillMarked(s, ids, undone) then Some(Dropped) else None
    case _ => None
  }

  /** The record after a step: moved, forgotten by undoing, or as before. */
  lemma LocIs(s: State, t: Tid, e: Effect, x: SolutionId)
    ensures var loc', to := LocAfter(s, t, e), MoveOf(s, t, e, x);
            && (to.Some? ==> x in loc' && loc'[x] == to.value)
            && (to.None? && UndoesTx(e) && NewAgain(s, x) ==> x !in loc')
            && (to.None? && !(UndoesTx(e) && NewAgain(s, x)) ==> (x in loc' <==> x in s.loc) && (x in s.loc ==> loc'[x] == s.loc[x]))
  {
    hide StillMarked;
  }

  /** After the move x is at l. */
  predicate HoldsAfter(s: State, to: Option<Loc>, l: Loc, x: SolutionId) {
    if to.Some? then !Gone(l) && l == to.value else Holds(s, l, x)
  }

  ghost predicate Moved(s: State, s': State, to: Option<Loc>, x: SolutionId) {
    forall l: Loc :: Holds(s', l, x) <==> HoldsAfter(s, to, l, x)
  }

  lemma MovedIsRecorded(s: State, t: Tid, e: Effect, pc: PC, s': State, x: SolutionId)
    requires Recorded(s, x) && RowOk(s, x) && s' == Perform(s, t, e, pc) && Moved(s, s', MoveOf(s, t, e, x), x)
    ensures Recorded(s', x)
  {
    hide Holds, MoveOf, LocAfter, StatusAfter, UndoAfter, ObjsAfter, ListsAfter, ClientsAfter;
    LocIs(s, t, e, x);
    NowhereGone(s, x);
    NowhereGone(s', x);
  }

  lemma NowhereGone(s: State, x: SolutionId)
    ensures forall l | Gone(l) :: !Holds(s, l, x)
  {
  }

  lemma RecordGives(s: State, l: Loc, x: SolutionId)
    requires Recorded(s, x) && Holds(s, l, x)
    ensures x in s.loc && s.loc[x] == l
    ensures forall l' | Holds(s, l', x) :: l' == l
  {
  }

  lemma RecordSays(s: State, l: Loc, x: SolutionId)
    requires Recorded(s, x)
    ensures Holds(s, l, x) ==> x in s.loc && s.loc[x] == l
  {
  }

  lemma TailOf(q: seq<SolutionId>, x: SolutionId)
    requires q != [] && Once(q, x)
    ensures Once(q[1..], x) && (x in q[1..] <==> x in q && x != q[0])
  {
    if x in q && x != q[0] {
      var i :| 0 <= i < |q| && q[i] == x;
      assert q[1..][i - 1] == x;
    }
  }

  // ---- Each effect moves what it says ----

  lemma TakeNextAt(s: State, t: Tid, s': State, l: Loc, x: SolutionId)
    requires Recorded(s, x) && t in s.threads && t in s.objs && s.threads[t] == Running(ProcHold)
    requires s.objs[t].queue != [] && Once(s.objs[t].queue, x)
    requires s' == Perform(s, t, TakeNext, Running(Idle))
    ensures Holds(s', l, x) <==> HoldsAfter(s, MoveOf(s, t, TakeNext, x), l, x)
  {
    hide Recorded, StatusAfter, ListsAfter, ClientsAfter, LocAfter, UndoAfter;
    TailOf(s.objs[t].queue, x);
    RecordSays(s, Queue(t), x);
    RecordSays(s, Slot(t), x);
    RecordSays(s, l, x);
    match l
    case Queue(o) =>
    case Slot(o) =>
    case _ =>
  }

  lemma ClearSlotAt(s: State, t: Tid, s': State, l: Loc, x: SolutionId)
    requires Recorded(s, x) && t in s.threads && t in s.objs && s.threads[t] == Running(ClearHold)
    requires s' == Perform(s, t, ClearSlot, Running(Idle))
    ensures Holds(s', l, x) <==> HoldsAfter(s, MoveOf(s, t, ClearSlot, x), l, x)
  {
    hide Recorded, StatusAfter, ListsAfter, ClientsAfter, LocAfter, UndoAfter;
    RecordSays(s, Slot(t), x);
    RecordSays(s, l, x);
    match l
    case Queue(o) =>
    case Slot(o) =>
    case _ =>
  }

  lemma ForgetSlotAt(s: State, t: Tid, s': State, l: Loc, x: SolutionId)
    requires t in s.threads && t in s.objs && s.threads[t] == Removing(DrainClear)
    requires s' == Perform(s, t, ForgetSlot, Removing(Drain))
    ensures Holds(s', l, x) <==> Holds(s, l, x)
  {
    hide StatusAfter, ListsAfter, ClientsAfter, LocAfter, UndoAfter;
    match l
    case Queue(o) =>
    case Slot(o) =>
    case _ =>
  }

  lemma TakeBackAt(s: State, t: Tid, pc: PC, s': State, l: Loc, x: SolutionId)
    requires Recorded(s, x) && t in s.threads && t in s.objs && s.threads[t] == Removing(Drain)
    requires s.objs[t].queue != [] && Once(s.objs[t].queue, x)
    requires pc.Push? && pc.caller == ByRemover(false) && pc.x == s.objs[t].queue[0]
    requires s' == Perform(s, t, TakeBack, pc)
    ensures Holds(s', l, x) <==> HoldsAfter(s, MoveOf(s, t, TakeBack, x), l, x)
  {
    hide Recorded, StatusAfter, ListsAfter, ClientsAfter, LocAfter, UndoAfter;
    TailOf(s.objs[t].queue, x);
    RecordSays(s, Queue(t), x);
    RecordSays(s, l, x);
    match l
    case Queue(o) =>
    case Slot(o) =>
    case Hand(u) =>
    case _ =>
  }

  lemma TakePendingAt(s: State, t: Tid, pc: PC, s': State, l: Loc, x: SolutionId)
    requires Recorded(s, x) && t == POLLER && t in s.threads && s.threads[t].Poll? && s.threads[t].poll.Batch?
    requires var q := s.threads[t].poll.pending;
             q != [] && Once(q, x) && pc.Push? && pc.caller == ByPoller(q[1..]) && pc.x == q[0]
    requires s' == Perform(s, t, TakePending(pc.x), pc)
    ensures Holds(s', l, x) <==> HoldsAfter(s, MoveOf(s, t, TakePending(pc.x), x), l, x)
  {
    hide Recorded, StatusAfter, ListsAfter, ClientsAfter, LocAfter, UndoAfter;
    TailOf(s.threads[t].poll.pending, x);
    RecordSays(s, Pending, x);
    RecordSays(s, l, x);
    match l
    case Pending =>
    case Slot(o) =>
    case Hand(u) =>
    case _ =>
  }

  /** Where the solution that a push carries is recorded. */
  function Carried(t: Tid, caller: Caller): Loc { if caller == ByRemover(true) then Slot(t) else Hand(t) }

  lemma PushHolds(s: State, t: Tid)
    requires t in s.threads && s.threads[t].Push? && HandOk(s, t) && (s.threads[t].caller.ByRemover? ==> t in s.objs)
    ensures Holds(s, Carried(t, s.threads[t].caller), s.threads[t].x)
  {
  }

  lemma MarkFailureAt(s: State, t: Tid, c: Choice, s': State, l: Loc, x: SolutionId)
    requires Recorded(s, x) && t in s.threads && s.threads[t].Push? && HandOk(s, t)
    requires if s.threads[t].caller.ByRemover? then t in s.objs else t == POLLER
    requires s' == Perform(s, t, MarkFailure(s.threads[t].x, c), Return(s.threads[t].caller))
    ensures Holds(s', l, x) <==> HoldsAfter(s, MoveOf(s, t, MarkFailure(s.threads[t].x, c), x), l, x)
  {
    hide Recorded, StatusAfter, ListsAfter, ClientsAfter, LocAfter, UndoAfter;
    PushHolds(s, t);
    RecordSays(s, Carried(t, s.threads[t].caller), x);
    RecordSays(s, l, x);
    match l
    case Pending =>
    case Slot(o) =>
    case Hand(u) =>
    case _ =>
  }

  lemma DeliverAt(s: State, t: Tid, o: Tid, s': State, l: Loc, x: SolutionId)
    requires Recorded(s, x) && t in s.threads && s.threads[t].Push? && HandOk(s, t) && o in s.objs && o != t
    requires if s.threads[t].caller.ByRemover? then t in s.objs else t == POLLER
    requires s' == Perform(s, t, Deliver(s.threads[t].x, o), Return(s.threads[t].caller))
    ensures Holds(s', l, x) <==> HoldsAfter(s, MoveOf(s, t, Deliver(s.threads[t].x, o), x), l, x)
  {
    hide Recorded, StatusAfter, ListsAfter, ClientsAfter, LocAfter, UndoAfter;
    PushHolds(s, t);
    RecordSays(s, Carried(t, s.threads[t].caller), x);
    RecordSays(s, l, x);
    match l
    case Pending =>
    case Queue(u) =>
    case Slot(u) =>
    case Hand(u) =>
    case _ =>
  }

  lemma CommitAt(s: State, t: Tid, ids: seq<SolutionId>, s': State, l: Loc, x: SolutionId)
    requires Recorded(s, x) && t == POLLER && t in s.threads && s.threads[t].Poll? && !s.threads[t].poll.Batch?
    requires x in ids ==> x !in s.loc
    requires s' == Perform(s, t, CommitRows(ids), Poll(Batch(ids)))
    ensures Holds(s', l, x) <==> HoldsAfter(s, MoveOf(s, t, CommitRows(ids), x), l, x)
  {
    hide Recorded, StatusAfter, ListsAfter, ClientsAfter, LocAfter, UndoAfter;
    RecordSays(s, l, x);
    match l
    case Pending =>
    case _ =>
  }

  lemma GiveUpAt(s: State, t: Tid, e: Effect, s': State, l: Loc, x: SolutionId)
    requires Recorded(s, x) && t == POLLER && t in s.threads && s.threads[t].Poll? && !s.threads[t].poll.Batch?
    requires e.GiveUp? && (x in e.ids ==> x !in s.loc) && s' == Perform(s, t, e, Poll(PollIdle))
    ensures Holds(s', l, x) <==> HoldsAfter(s, MoveOf(s, t, e, x), l, x)
  {
    hide Recorded, StatusAfter, ListsAfter, ClientsAfter, LocAfter, UndoAfter;
    RecordSays(s, l, x);
  }

  /** The thread carries and batches what it did before. */
  predicate SameHands(pc: PC, pc': PC, x: SolutionId) {
    && (InHand(pc, x) <==> InHand(pc', x)) && (InBatch(pc, x) <==> InBatch(pc', x))
    && (pc == Removing(DrainClear) <==> pc' == Removing(DrainClear))
  }

  lemma NothingMovesAt(s: State, s': State, t: Tid, l: Loc, x: SolutionId)
    requires t in s.threads && t in s'.threads && s'.threads == s.threads[t := s'.threads[t]]
    requires forall o | o in s.objs :: o in s'.objs && s'.objs[o] == s.objs[o]
    requires forall o | o in s'.objs && o !in s.objs :: s'.objs[o].queue == [] && s'.objs[o].checking.None?
    requires SameHands(s.threads[t], s'.threads[t], x)
    ensures Holds(s', l, x) <==> Holds(s, l, x)
  {
    match l
    case Pending =>
    case Queue(u) =>
    case Slot(u) =>
    case Hand(u) =>
    case _ =>
  }

  // ---- Threads that remove their client ----

  lemma OthersObjs(s: State, t: Tid, e: Effect, u: Tid)
    requires u != t
    ensures var m := if u in ObjsAfter(s, t, e) then ObjsAfter(s, t, e)[u] else Client(0, [], None);
            m.checking == Me(s, u).checking && (Freed(s, u) ==> m.queue == Me(s, u).queue)
  {
  }

  lemma OthersHandOk(s: State, t: Tid, e: Effect, pc: PC, u: Tid)
    requires u in s.threads && u != t && HandOk(s, u)
    ensures HandOk(Perform(s, t, e, pc), u)
  {
    hide ObjsAfter, StatusAfter, LocAfter, ListsAfter, ClientsAfter, UndoAfter;
    OthersObjs(s, t, e, u);
  }

  lemma RunningHandOk(s: State, t: Tid, step: ClientStep, c: Choice)
    requires t in s.threads && s.threads[t] == Running(step) && Me(s, t).id in s.clients
    ensures var (pc, e) := DecideRunning(s, t, step, c); HandOk(Perform(s, t, e, pc), t)
  {
    hide StatusAfter, LocAfter, ListsAfter, ClientsAfter, UndoAfter, ObjsAfter;
  }

  lemma RemovingHandOk(s: State, t: Tid, drain: DrainStep)
    requires t in s.threads && s.threads[t] == Removing(drain) && t in s.objs && HandOk(s, t) && !drain.DrainWant? && !drain.Done?
    ensures var (pc, e) := DecideRemoving(s, t, drain); HandOk(Perform(s, t, e, pc), t)
  {
    hide StatusAfter, LocAfter, ListsAfter, ClientsAfter, UndoAfter;
  }

  lemma PushHandOk(s: State, t: Tid, c: Choice)
    requires t in s.threads && s.threads[t].Push? && HandOk(s, t) && Wants(t, s.threads[t]).None?
    ensures var (pc, e) := Decide(s, t, s.threads[t], c); HandOk(Perform(s, t, e, pc), t)
  {
    hide StatusAfter, LocAfter, ListsAfter, ClientsAfter, UndoAfter, ObjsAfter, Loaded, ListFor;
    PushKeepsSlot(s, t, Decide(s, t, s.threads[t], c).1);
  }

  lemma PushKeepsSlot(s: State, t: Tid, e: Effect)
    requires e.Nothing? || e.MarkFailure? || e.Deliver?
    ensures var m := if t in ObjsAfter(s, t, e) then ObjsAfter(s, t, e)[t] else Client(0, [], None); m.checking == Me(s, t).checking
  {
  }

  lemma OwnHandOk(s: State, t: Tid, c: Choice)
    requires t in s.threads && HandOk(s, t) && ThreadOk(s, t) && Enabled(s, Act(t, c))
    ensures HandOk(Next(s, Act(t, c)), t)
  {
    hide DecideRunning, DecideRemoving, DecidePush, ObjsAfter, StatusAfter, LocAfter, ListsAfter, ClientsAfter, UndoAfter, ChoiceFits, Held;
    match s.threads[t]
    case Entering(_, _) =>
    case Running(step) => RunningHandOk(s, t, step, c);
    case Removing(drain) => RemovingHandOk(s, t, drain);
    case Poll(_) =>
    case Push(_, _, _, stage) => PushHandOk(s, t, c);
  }

  lemma GotHandOk(s: State, t: Tid, u: Tid)
    requires t in s.threads && u in s.threads && HandOk(s, u)
    ensures HandOk(Goto(s, t, Got(s, s.threads[t])), u)
  {
  }

  lemma TidyGives(s: State, t: Tid)
    requires TidyOk(s)
    ensures t in s.threads ==> HandOk(s, t)
  {
  }

  lemma StepTidy(s: State, l: Label)
    requires Inv(s) && TidyOk(s) && Enabled(s, l)
    ensures TidyOk(Next(s, l))
  {
    hide HandOk, IndexOk, MutexOk, TargetsOk, Held, Decide, Got, ObjsAfter, StatusAfter, LocAfter, ListsAfter, ClientsAfter, UndoAfter;
    var s' := Next(s, l);
    forall u | u in s'.threads ensures HandOk(s', u) {
      TidyGives(s, u);
      match l
      case Act(t, c) =>
        ThreadsGive(s, t);
        if u == t { OwnHandOk(s, t, c); } else { OthersHandOk(s, t, Decide(s, t, s.threads[t], c).1, Decide(s, t, s.threads[t], c).0, u); }
      case Acquire(t) => GotHandOk(s, t, u);
      case Accept(t, ks) => OtherLabels(s, l, u);
      case Submit(_, _) => OtherLabels(s, l, u);
    }
  }

  lemma OtherLabels(s: State, l: Label, u: Tid)
    requires (l.Accept? || l.Submit?) && Enabled(s, l) && (u in s.threads ==> HandOk(s, u)) && u in Next(s, l).threads
    ensures HandOk(Next(s, l), u)
  {
  }

  // ---- At most once in every queue ----

  lemma QueueOnce(s: State, t: Tid, e: Effect, o: Tid, x: SolutionId)
    requires OnceOk(s, x) && o in ObjsAfter(s, t, e)
    requires e.Deliver? && e.x == x && e.o == o && o in s.objs ==> x !in s.objs[o].queue
    ensures Once(ObjsAfter(s, t, e)[o].queue, x)
  {
    hide BatchOnce;
    if t in s.objs && s.objs[t].queue != [] { TailOf(s.objs[t].queue, x); }
  }

  lemma StillOnce(s: State, t: Tid, e: Effect, pc: PC, x: SolutionId)
    requires OnceOk(s, x) && BatchOnce(pc, x)
    requires e.Deliver? && e.x == x && e.o in s.objs ==> x !in s.objs[e.o].queue
    ensures OnceOk(Perform(s, t, e, pc), x)
  {
    hide Once, BatchOnce, ObjsAfter, StatusAfter, LocAfter, ListsAfter, ClientsAfter, UndoAfter;
    forall o | o in ObjsAfter(s, t, e) ensures Once(ObjsAfter(s, t, e)[o].queue, x) { QueueOnce(s, t, e, o, x); }
  }

  lemma PollBatch(s: State, poll: PollStep, c: Choice, x: SolutionId)
    requires BatchOnce(Poll(poll), x) && SelectedOnce(Poll(poll), x)
    ensures BatchOnce(DecidePoll(s, poll, c).0, x)
  {
    hide Once;
    if poll.Batch? && poll.pending != [] { TailOf(poll.pending, x); }
  }

  lemma PushBatch(s: State, caller: Caller, y: SolutionId, k: Compiler, stage: Stage, c: Choice, x: SolutionId)
    requires BatchOnce(Push(caller, y, k, stage), x)
    ensures BatchOnce(DecidePush(s, caller, y, k, stage, c).0, x)
  {
    hide Once, Loaded, ListFor;
  }

  lemma ClientBatch(s: State, t: Tid, pc: PC, c: Choice, x: SolutionId)
    requires pc.Entering? || pc.Running? || pc.Removing?
    ensures BatchOnce(Decide(s, t, pc, c).0, x)
  {
    hide Once;
  }

  /** The batch a step leaves. */
  lemma BatchDecides(s: State, t: Tid, c: Choice, x: SolutionId)
    requires t in s.threads && BatchOnce(s.threads[t], x) && SelectedOnce(s.threads[t], x)
    ensures BatchOnce(Decide(s, t, s.threads[t], c).0, x)
  {
    hide BatchOnce, SelectedOnce, DecidePoll, DecidePush, DecideRunning, DecideRemoving;
    match s.threads[t]
    case Poll(poll) => PollBatch(s, poll, c, x);
    case Push(caller, y, k, stage) => PushBatch(s, caller, y, k, stage, c, x);
    case _ => ClientBatch(s, t, s.threads[t], c, x);
  }

  // ---- Steps of one thread ----

  /** Thread t takes a step with effect e, and x moves as the effect says. */
  lemma Finish(s: State, t: Tid, c: Choice, x: SolutionId)
    requires OwnOk(s, x) && RowInv(s, x) && t in s.threads && (t != POLLER ==> !s.threads[t].Poll?)
    requires var (pc, e) := Decide(s, t, s.threads[t], c);
             && Moved(s, Next(s, Act(t, c)), MoveOf(s, t, e, x), x)
             && (e.Deliver? && e.x == x && e.o in s.objs ==> x !in s.objs[e.o].queue)
    ensures Recorded(Next(s, Act(t, c)), x) && OnceOk(Next(s, Act(t, c)), x)
  {
    hide Decide, Moved, MoveOf, TidyOk, Recorded, OnceOk, BatchOnce, SelectedOnce, ObjsAfter, StatusAfter, LocAfter, ListsAfter, ClientsAfter, UndoAfter,
         RowOk, TableOk;
    var (pc, e) := Decide(s, t, s.threads[t], c);
    MovedIsRecorded(s, t, e, pc, Next(s, Act(t, c)), x);
    BatchGives(s, t, x);
    if t != POLLER { NotPolling(s.threads[t], x); }
    BatchDecides(s, t, c, x);
    StillOnce(s, t, e, pc, x);
  }

  lemma BatchGives(s: State, t: Tid, x: SolutionId)
    requires OnceOk(s, x) && t in s.threads
    ensures BatchOnce(s.threads[t], x)
    ensures t in s.objs ==> Once(s.objs[t].queue, x)
  {
  }

  lemma NotPolling(pc: PC, x: SolutionId)
    ensures !pc.Poll? ==> SelectedOnce(pc, x)
  {
  }

  /** Steps that move nothing. */
  lemma StillMoved(s: State, t: Tid, e: Effect, pc: PC, x: SolutionId)
    requires t in s.threads && SameHands(s.threads[t], pc, x)
    requires || e.Nothing? || e.Enlist? || e.Delist? || e.DropClient? || e.Mark? || e.FailedPost? || e.BeginTx? || e.MarkRow? || e.UndoTx?
             || (e.AddClient? && t !in s.objs)
    ensures Moved(s, Perform(s, t, e, pc), MoveOf(s, t, e, x), x)
  {
    hide StatusAfter, LocAfter, ListsAfter, ClientsAfter, UndoAfter, SameHands, Holds;
    var s' := Perform(s, t, e, pc);
    forall l: Loc ensures Holds(s', l, x) <==> Holds(s, l, x) { NothingMovesAt(s, s', t, l, x); }
  }

  lemma RunningMoved(s: State, t: Tid, step: ClientStep, c: Choice, x: SolutionId)
    requires OwnOk(s, x) && t in s.threads && s.threads[t] == Running(step) && t in s.objs
    requires StepWants(t, step).None? && Me(s, t).id in s.clients
    ensures var e := Decide(s, t, s.threads[t], c).1;
            Moved(s, Next(s, Act(t, c)), MoveOf(s, t, e, x), x) && !e.Deliver?
  {
    hide HandOk, StatusAfter, ListsAfter, ClientsAfter, ObjsAfter, LocAfter, UndoAfter, TidyOk, Once, MoveOf, HoldsAfter, Holds;
    var (pc, e) := Decide(s, t, s.threads[t], c);
    var s' := Perform(s, t, e, pc);
    BatchGives(s, t, x);
    if e.TakeNext? {
      forall l: Loc ensures Holds(s', l, x) <==> HoldsAfter(s, MoveOf(s, t, e, x), l, x) { TakeNextAt(s, t, s', l, x); }
    } else if e.ClearSlot? {
      forall l: Loc ensures Holds(s', l, x) <==> HoldsAfter(s, MoveOf(s, t, e, x), l, x) { ClearSlotAt(s, t, s', l, x); }
    } else {
      StillMoved(s, t, e, pc, x);
    }
  }

  lemma RemovingMoved(s: State, t: Tid, drain: DrainStep, c: Choice, x: SolutionId)
    requires OwnOk(s, x) && t in s.threads && s.threads[t] == Removing(drain) && t in s.objs && !drain.DrainWant? && !drain.Done?
    ensures var e := Decide(s, t, s.threads[t], c).1;
            Moved(s, Next(s, Act(t, c)), MoveOf(s, t, e, x), x) && !e.Deliver?
  {
    hide HandOk, StatusAfter, ListsAfter, ClientsAfter, ObjsAfter, LocAfter, UndoAfter, TidyOk, Once, HoldsAfter, Holds;
    var (pc, e) := Decide(s, t, s.threads[t], c);
    var s' := Perform(s, t, e, pc);
    BatchGives(s, t, x);
    if e.TakeBack? {
      forall l: Loc ensures Holds(s', l, x) <==> HoldsAfter(s, MoveOf(s, t, e, x), l, x) { TakeBackAt(s, t, pc, s', l, x); }
    } else if e.ForgetSlot? {
      forall l: Loc ensures Holds(s', l, x) <==> HoldsAfter(s, MoveOf(s, t, e, x), l, x) { ForgetSlotAt(s, t, s', l, x); StaysPut(s, l, x); }
    } else {
      StillMoved(s, t, e, pc, x);
    }
  }

  lemma StaysPut(s: State, l: Loc, x: SolutionId)
    ensures HoldsAfter(s, None, l, x) <==> Holds(s, l, x)
  {
  }

  /** What an extraction has updated has not been handed out. */
  lemma ExtractedApart(s: State, t: Tid, c: Choice, x: SolutionId)
    requires RowInv(s, x) && t == POLLER && t in s.threads && s.threads[t].Poll?
    ensures var e := Decide(s, t, s.threads[t], c).1; (e.CommitRows? || e.GiveUp?) && x in e.ids ==> BeingMarked(s.threads[t], x) && Marked(s, x)
  {
    if s.threads[t].poll.Marking? {
      var ids := s.threads[t].poll.ids;
      assert ids[..|ids|] == ids;
    }
  }

  lemma PollMoved(s: State, t: Tid, poll: PollStep, c: Choice, x: SolutionId)
    requires OwnOk(s, x) && RowInv(s, x) && t == POLLER && t in s.threads && s.threads[t] == Poll(poll) && !poll.PollWant?
    ensures var e := Decide(s, t, s.threads[t], c).1;
            Moved(s, Next(s, Act(t, c)), MoveOf(s, t, e, x), x) && !e.Deliver?
  {
    hide StatusAfter, ListsAfter, ClientsAfter, ObjsAfter, LocAfter, UndoAfter, TidyOk, Once, MoveOf, HoldsAfter, Holds, RowOk, TableOk, ExtractOk;
    var (pc, e) := Decide(s, t, s.threads[t], c);
    var s' := Perform(s, t, e, pc);
    BatchGives(s, t, x);
    ExtractedApart(s, t, c, x);
    if e.TakePending? {
      forall l: Loc ensures Holds(s', l, x) <==> HoldsAfter(s, MoveOf(s, t, e, x), l, x) { TakePendingAt(s, t, pc, s', l, x); }
    } else if e.CommitRows? {
      forall l: Loc ensures Holds(s', l, x) <==> HoldsAfter(s, MoveOf(s, t, e, x), l, x) { CommitAt(s, t, e.ids, s', l, x); }
    } else if e.GiveUp? {
      forall l: Loc ensures Holds(s', l, x) <==> HoldsAfter(s, MoveOf(s, t, e, x), l, x) { GiveUpAt(s, t, e, s', l, x); }
    } else {
      StillMoved(s, t, e, pc, x);
    }
  }

  lemma PushMoved(s: State, t: Tid, c: Choice, x: SolutionId)
    requires ThreadsOk(s) && TargetsOk(s) && OwnOk(s, x)
    requires t in s.threads && s.threads[t].Push? && Wants(t, s.threads[t]).None?
    ensures var e := Decide(s, t, s.threads[t], c).1;
            && Moved(s, Next(s, Act(t, c)), MoveOf(s, t, e, x), x)
            && (e.Deliver? && e.x == x && e.o in s.objs ==> x !in s.objs[e.o].queue)
  {
    hide StatusAfter, ListsAfter, ClientsAfter, ObjsAfter, LocAfter, UndoAfter, OnceOk, MoveOf, HoldsAfter, Holds, HandOk, ThreadsOk, TargetsOk, Recorded;
    ThreadsGive(s, t);
    TidyGives(s, t);
    var (pc, e) := Decide(s, t, s.threads[t], c);
    var s' := Perform(s, t, e, pc);
    if e.MarkFailure? {
      forall l: Loc ensures Holds(s', l, x) <==> HoldsAfter(s, MoveOf(s, t, e, x), l, x) { MarkFailureAt(s, t, c, s', l, x); }
    } else if e.Deliver? {
      DeliverTarget(s, t, e.o);
      DeliverMoved(s, t, e.o, s', x);
    } else {
      StillMoved(s, t, e, pc, x);
    }
  }

  lemma DeliverMoved(s: State, t: Tid, o: Tid, s': State, x: SolutionId)
    requires Recorded(s, x) && t in s.threads && s.threads[t].Push? && HandOk(s, t) && o in s.objs && o != t
    requires if s.threads[t].caller.ByRemover? then t in s.objs else t == POLLER
    requires s' == Perform(s, t, Deliver(s.threads[t].x, o), Return(s.threads[t].caller))
    ensures Moved(s, s', MoveOf(s, t, Deliver(s.threads[t].x, o), x), x)
    ensures s.threads[t].x == x ==> x !in s.objs[o].queue
  {
    hide Perform, MoveOf, HoldsAfter, Holds, HandOk, Recorded;
    var e := Deliver(s.threads[t].x, o);
    forall l: Loc ensures Holds(s', l, x) <==> HoldsAfter(s, MoveOf(s, t, e, x), l, x) { DeliverAt(s, t, o, s', l, x); }
    if s.threads[t].x == x { NotQueued(s, t, o); }
  }

  /** What a push carries is in no queue. */
  lemma NotQueued(s: State, t: Tid, o: Tid)
    requires t in s.threads && s.threads[t].Push? && HandOk(s, t) && (s.threads[t].caller.ByRemover? ==> t in s.objs)
    requires Recorded(s, s.threads[t].x) && o in s.objs
    ensures s.threads[t].x !in s.objs[o].queue
  {
    hide Recorded;
    PushHolds(s, t);
    RecordGives(s, Carried(t, s.threads[t].caller), s.threads[t].x);
    RecordSays(s, Queue(o), s.threads[t].x);
  }

  // ---- Every step ----

  lemma AcquireOwned(s: State, t: Tid, x: SolutionId)
    requires Recorded(s, x) && OnceOk(s, x) && t in s.threads
    ensures var s' := Goto(s, t, Got(s, s.threads[t])); Recorded(s', x) && OnceOk(s', x)
  {
    hide Once, Holds;
    var s' := Goto(s, t, Got(s, s.threads[t]));
    forall l: Loc ensures Holds(s', l, x) <==> Holds(s, l, x) { NothingMovesAt(s, s', t, l, x); }
  }

  lemma OtherOwned(s: State, l: Label, x: SolutionId)
    requires Recorded(s, x) && OnceOk(s, x) && (l.Submit? || l.Accept?) && Enabled(s, l)
    requires POLLER in s.threads && (l.Accept? ==> l.t !in s.objs)
    ensures Recorded(Next(s, l), x) && OnceOk(Next(s, l), x)
  {
    hide Once;
    var s' := Next(s, l);
    forall p: Loc ensures Holds(s', p, x) <==> Holds(s, p, x) {
      match p
      case Pending =>
      case Slot(_) =>
      case Hand(_) =>
      case _ =>
    }
  }

  lemma ActOwned(s: State, t: Tid, c: Choice, x: SolutionId)
    requires Inv(s) && OwnOk(s, x) && RowInv(s, x) && Enabled(s, Act(t, c))
    ensures Recorded(Next(s, Act(t, c)), x) && OnceOk(Next(s, Act(t, c)), x)
  {
    hide OwnOk, RowInv, IndexOk, MutexOk, TargetsOk, Held, StepWants, Decide, Perform, ChoiceFits, Moved, MoveOf, Recorded, OnceOk;
    ThreadsGive(s, t);
    match s.threads[t]
    case Entering(_, _) => EnteringMoved(s, t, c, x); Finish(s, t, c, x);
    case Running(step) => RunningMoved(s, t, step, c, x); Finish(s, t, c, x);
    case Removing(drain) => RemovingMoved(s, t, drain, c, x); Finish(s, t, c, x);
    case Poll(poll) => PollMoved(s, t, poll, c, x); Finish(s, t, c, x);
    case Push(_, _, _, _) => PushMoved(s, t, c, x); Finish(s, t, c, x);
  }

  lemma EnteringMoved(s: State, t: Tid, c: Choice, x: SolutionId)
    requires t in s.threads && s.threads[t].Entering? && t !in s.objs
    ensures var e := Decide(s, t, s.threads[t], c).1;
            Moved(s, Next(s, Act(t, c)), MoveOf(s, t, e, x), x) && !e.Deliver?
  {
    hide LocAfter, StatusAfter, ListsAfter, ClientsAfter, Moved;
    StillMoved(s, t, AddClient, Decide(s, t, s.threads[t], c).0, x);
  }

  lemma StepOwned(s: State, l: Label, x: SolutionId)
    requires Inv(s) && OwnOk(s, x) && RowInv(s, x) && Enabled(s, l)
    ensures OwnOk(Next(s, l), x)
  {
    hide TidyOk, Recorded, OnceOk, RowInv, IndexOk, MutexOk, TargetsOk, Decide, Got, Perform, ChoiceFits, Held;
    StepTidy(s, l);
    match l
    case Submit(sid, k) => OtherOwned(s, l, x);
    case Accept(t, ks) => OtherOwned(s, l, x);
    case Acquire(t) => AcquireOwned(s, t, x);
    case Act(t, c) => ActOwned(s, t, c, x);
  }

  // ---- The row ----

  /** The solution that a thread pushes is on record as in its hand or slot. */
  lemma PushedRow(s: State, t: Tid)
    requires ThreadsOk(s) && TidyOk(s) && t in s.threads && s.threads[t].Push? && Recorded(s, s.threads[t].x)
    ensures var x := s.threads[t].x; x in s.loc && !Gone(s.loc[x])
  {
    ThreadsGive(s, t);
    TidyGives(s, t);
    PushHolds(s, t);
    RecordGives(s, Carried(t, s.threads[t].caller), s.threads[t].x);
  }

  /** Where a solution that a step moves is, queries of the poller left aside. */
  lemma MovedPlace(s: State, t: Tid, c: Choice, x: SolutionId)
    requires t in s.threads && ThreadOk(s, t) && ChoiceFits(s, s.threads[t], c) && Wants(t, s.threads[t]).None?
    requires var e := Decide(s, t, s.threads[t], c).1; MoveOf(s, t, e, x).Some? && !OnDb(e)
    ensures || Holds(s, Slot(t), x) || Holds(s, Queue(t), x) || Holds(s, Pending, x)
            || (s.threads[t].Push? && s.threads[t].x == x)
  {
    match s.threads[t]
    case Entering(_, _) =>
    case Running(step) =>
    case Removing(_) =>
    case Poll(_) =>
    case Push(_, _, _, stage) =>
  }

  lemma MovedWasHeld(s: State, t: Tid, c: Choice, x: SolutionId)
    requires Inv(s) && OwnOk(s, x) && Enabled(s, Act(t, c))
    requires var e := Decide(s, t, s.threads[t], c).1; MoveOf(s, t, e, x).Some? && !OnDb(e)
    ensures x in s.loc && !Gone(s.loc[x])
  {
    hide IndexOk, MutexOk, TargetsOk, Recorded, TidyOk, OnceOk, Holds, MoveOf, Decide, ThreadOk, OnDb;
    ThreadsGive(s, t);
    MovedPlace(s, t, c, x);
    if s.threads[t].Push? && s.threads[t].x == x { PushedRow(s, t); }
    RecordSays(s, Slot(t), x);
    RecordSays(s, Queue(t), x);
    RecordSays(s, Pending, x);
    NowhereGone(s, x);
  }

  /** A step that is no query of the poller hands nothing out, and forgets x only where undoing makes
      the row new. */
  lemma ActKeepsLoc(s: State, t: Tid, c: Choice, x: SolutionId)
    requires Inv(s) && OwnOk(s, x) && RowOk(s, x) && Enabled(s, Act(t, c)) && !OnDb(Decide(s, t, s.threads[t], c).1)
    ensures var e, s' := Decide(s, t, s.threads[t], c).1, Next(s, Act(t, c));
            && (UndoesTx(e) ==> (x in s'.loc <==> x in s.loc && !NewAgain(s, x)))
            && (!UndoesTx(e) ==> LocKept(s, s', x))
  {
    hide Inv, OwnOk, Decide, LocAfter, MoveOf, OnDb, UndoesTx, StatusAfter, UndoAfter, ObjsAfter, ListsAfter, ClientsAfter, Wants, Held, ChoiceFits;
    var e := Decide(s, t, s.threads[t], c).1;
    LocIs(s, t, e, x);
    if MoveOf(s, t, e, x).Some? { MovedWasHeld(s, t, c, x); }
  }

  /** Which effects write to the database, and from where. */
  lemma Writers(s: State, t: Tid, c: Choice)
    requires t in s.threads && Wants(t, s.threads[t]).None? && ChoiceFits(s, s.threads[t], c)
    ensures var (pc, e) := Decide(s, t, s.threads[t], c);
            && (OnDb(e) ==> s.threads[t].Poll?)
            && (e.Mark? || e.FailedPost? ==> Db in Held(t, s.threads[t]) && s.threads[t].Running?)
            && (e.MarkFailure? ==> s.threads[t].Push? && s.threads[t].x == e.x && e.c == c)
            && (!s.threads[t].Poll? ==> !Extracting(pc))
            && (s.threads[t].Push? && pc.Poll? ==> pc.poll.Batch?)
  {
    match s.threads[t]
    case Entering(_, _) =>
    case Running(_) =>
    case Removing(_) =>
    case Poll(_) =>
    case Push(_, _, _, stage) =>
  }

  lemma EffectWrites(s: State, e: Effect)
    ensures UndoesTx(e) ==>
              StatusAfter(s, e) == (if s.undo.Some? then s.status + s.undo.value else s.status) && UndoAfter(s, e).None?
    ensures e.Mark? ==>
              StatusAfter(s, e) == (if e.sid in s.status then s.status[e.sid := 2] else s.status) && UndoAfter(s, e) == Overwritten(s, e.sid)
    ensures e.MarkFailure? && e.c.Go? ==>
              StatusAfter(s, e) == (if e.x in s.status then s.status[e.x := 2] else s.status) && UndoAfter(s, e) == Overwritten(s, e.x)
    ensures !UndoesTx(e) && !e.Mark? && !(e.MarkFailure? && e.c.Go?) && !OnDb(e) ==> StatusAfter(s, e) == s.status && UndoAfter(s, e) == s.undo
    ensures UndoesTx(e) ==> !e.Mark? && !(e.MarkFailure? && e.c.Go?)
  {
  }

  lemma PollerHolds(s: State)
    ensures Extracting(PollerPc(s)) ==> POLLER in s.threads && s.threads[POLLER].Poll? && Db in Held(POLLER, s.threads[POLLER])
  {
  }

  lemma PushedInLoc(s: State, t: Tid, x: SolutionId)
    requires ThreadsOk(s) && OwnOk(s, x) && t in s.threads
    ensures s.threads[t].Push? && s.threads[t].x == x ==> x in s.loc
  {
    hide ThreadsOk, TidyOk, Recorded, OnceOk;
    if s.threads[t].Push? && s.threads[t].x == x { PushedRow(s, t); }
  }

  /** The poller's position after a step of a thread that is not in poll_database. */
  lemma OthersPoll(s: State, t: Tid, c: Choice)
    requires Inv(s) && Enabled(s, Act(t, c)) && !s.threads[t].Poll?
    ensures SamePoll(s, Next(s, Act(t, c)))
  {
    hide Inv, Decide, Extracting, StatusAfter, UndoAfter, LocAfter, ObjsAfter, ListsAfter, ClientsAfter, Wants, Held, ChoiceFits;
    Writers(s, t, c);
    PollerHolds(s);
  }

  lemma SamePollSameMarks(s: State, s': State, x: SolutionId)
    requires SamePoll(s, s')
    ensures SameMarks(s, s', x)
  {
    hide BeingMarked, ToBeMarked, SelectedOnce;
    SamePollMarks(s, s', x);
  }

  lemma OthersRows(s: State, t: Tid, c: Choice, x: SolutionId)
    requires Inv(s) && OwnOk(s, x) && RowInv(s, x) && Enabled(s, Act(t, c)) && !s.threads[t].Poll? && TableOk(Next(s, Act(t, c)))
    ensures RowInv(Next(s, Act(t, c)), x)
  {
    hide IndexOk, TargetsOk, ThreadsOk, OwnOk, TableOk, RowOk, ExtractOk, Decide, LocAfter, StatusAfter, UndoAfter, ObjsAfter, ListsAfter, ClientsAfter,
         OnDb, UndoesTx, Held, Wants, ChoiceFits, LocKept, Extracting, SamePoll, SameMarks, PollerPc;
    var e := Decide(s, t, s.threads[t], c).1;
    var s' := Next(s, Act(t, c));
    Writers(s, t, c);
    ActKeepsLoc(s, t, c, x);
    PushedInLoc(s, t, x);
    PollerHolds(s);
    OthersPoll(s, t, c);
    EffectWrites(s, e);
    if UndoesTx(e) {
      SamePollSameMarks(s, s', x);
      UndoKeeps(s, s', x);
    } else if e.Mark? {
      PostKeeps(s, s', e.sid, x);
    } else if e.MarkFailure? && e.c.Go? {
      PostKeeps(s, s', e.x, x);
    } else {
      DbUntouched(s, s', x);
    }
  }

  /** The poller's commit succeeds, and it goes on to push x. */
  predicate HandsOut(s: State, l: Label, x: SolutionId) {
    && l.Act? && l.c.Go? && l.t in s.threads && s.threads[l.t].Poll? && s.threads[l.t].poll.Marking?
    && s.threads[l.t].poll.done >= |s.threads[l.t].poll.ids| && x in s.threads[l.t].poll.ids
  }

  /** x is handed out although its row is new: another thread's query has undone its update. */
  predicate Strays(s: State, l: Label, x: SolutionId) { HandsOut(s, l, x) && !(x in s.status && s.status[x] >= 1) }

  lemma PollerRows(s: State, poll: PollStep, c: Choice, x: SolutionId)
    requires Inv(s) && OwnOk(s, x) && RowInv(s, x) && Enabled(s, Act(POLLER, c)) && s.threads[POLLER] == Poll(poll)
    requires !Strays(s, Act(POLLER, c), x) && TableOk(Next(s, Act(POLLER, c)))
    ensures RowInv(Next(s, Act(POLLER, c)), x)
  {
    hide Inv, OwnOk, RowInv, TableOk, LocAfter, StatusAfter, UndoAfter, ObjsAfter, ListsAfter, ClientsAfter, FreshRows, BeingMarked;
    MarkingBound(s, x);
    var s' := Next(s, Act(POLLER, c));
    var (pc, e) := Decide(s, POLLER, s.threads[POLLER], c);
    assert !e.TakePending? ==> PollStepTo(s, s', e, pc.poll);
    match e
    case BeginTx => BeginKeeps(s, s', poll.ids, x);
    case MarkRow(y) => MarkRowKeeps(s, s', poll.ids, poll.done, x);
    case CommitRows(ids) => CommitKeeps(s, s', ids, x);
    case UndoTx => PollerUndoes(s, s', poll, c, x);
    case GiveUp(ids, undone) => GiveUpKeeps(s, s', ids, undone, x);
    case TakePending(y) => PollerKeeps(s, c, x);
    case Nothing =>
      match poll
      case PollHold => if c.Extract? { SelectKeeps(s, s', c.ids, x); } else { IdleKeeps(s, s', poll, x); }
      case PollIdle => PollerKeeps(s, c, x);
      case Selected(ids) => IdleKeeps(s, s', poll, x);
      case Marking(ids, done) => FailKeeps(s, s', ids, done, x);
      case Batch(_) => IdleKeeps(s, s', poll, x);
  }

  lemma PollerUndoes(s: State, s': State, poll: PollStep, c: Choice, x: SolutionId)
    requires RowInv(s, x) && PollerPc(s) == Poll(poll) && (poll.PollHold? || poll.Selected? || (poll.Marking? && poll.done < |poll.ids|))
    requires PollStepTo(s, s', UndoTx, if poll.Marking? then RollingBack(poll.ids[..poll.done]) else PollIdle)
    ensures RowInv(s', x)
  {
    hide TableOk, RowOk, ExtractOk, LocAfter, MoveOf;
    LocIs(s, POLLER, UndoTx, x);
    assert MoveOf(s, POLLER, UndoTx, x).None? by { UndoMovesNothing(s, POLLER, x); }
    UndoKeeps(s, s', x);
  }

  lemma UndoMovesNothing(s: State, t: Tid, x: SolutionId)
    ensures MoveOf(s, t, UndoTx, x).None?
  {
  }

  /** Steps of the poller that ask the database nothing. */
  lemma PollerKeeps(s: State, c: Choice, x: SolutionId)
    requires Inv(s) && OwnOk(s, x) && RowInv(s, x) && Enabled(s, Act(POLLER, c)) && TableOk(Next(s, Act(POLLER, c)))
    requires s.threads[POLLER].Poll? && (s.threads[POLLER].poll.Batch? || s.threads[POLLER].poll.PollIdle?)
    requires var e := Decide(s, POLLER, s.threads[POLLER], c).1; e.TakePending? || e.Nothing?
    ensures RowInv(Next(s, Act(POLLER, c)), x)
  {
    hide Inv, OwnOk, TableOk, RowOk, ExtractOk, LocAfter, StatusAfter, UndoAfter, ObjsAfter, ListsAfter, ClientsAfter, LocKept;
    var s' := Next(s, Act(POLLER, c));
    ActKeepsLoc(s, POLLER, c, x);
    EffectWrites(s, Decide(s, POLLER, s.threads[POLLER], c).1);
    DbUntouched(s, s', x);
  }

  lemma IdleKeeps(s: State, s': State, poll: PollStep, x: SolutionId)
    requires RowInv(s, x) && PollerPc(s) == Poll(poll) && !poll.Marking? && !poll.RollingBack? && PollStepTo(s, s', Nothing, PollIdle)
    ensures RowInv(s', x)
  {
    hide RowInv, TableOk;
    StopKeeps(s, s', x);
  }

  lemma MarkingBound(s: State, x: SolutionId)
    requires RowInv(s, x)
    ensures PollerPc(s).Poll? && PollerPc(s).poll.Marking? ==> PollerPc(s).poll.done <= |PollerPc(s).poll.ids|
  {
  }

  lemma StepRows(s: State, l: Label, x: SolutionId)
    requires Inv(s) && OwnOk(s, x) && RowInv(s, x) && Enabled(s, l) && !Strays(s, l, x)
    ensures RowInv(Next(s, l), x)
  {
    hide OwnOk, RowOk, ExtractOk, TableOk, IndexOk, MutexOk, TargetsOk, Decide, Got, Perform, Held, ChoiceFits, Strays;
    StepTable(s, l);
    match l
    case Submit(sid, k) => SubmitKeeps(s, sid, k, x);
    case Accept(t, ks) => DbUntouched(s, Next(s, l), x);
    case Acquire(t) => GotPoll(s, t); DbUntouched(s, Next(s, l), x);
    case Act(t, c) =>
      ThreadsGive(s, t);
      if s.threads[t].Poll? { PollerRows(s, s.threads[t].poll, c, x); } else { OthersRows(s, t, c, x); }
  }

  lemma GotPoll(s: State, t: Tid)
    requires t in s.threads && Wants(t, s.threads[t]).Some?
    ensures !Extracting(s.threads[t]) && !Extracting(Got(s, s.threads[t]))
  {
  }

  // ---- Runs ----

  /** No commit up to state n handed x out while its row was new. */
  ghost predicate NeverStrays(states: seq<State>, labels: seq<Label>, n: nat, x: SolutionId)
    requires n <= |labels| <= |states|
  {
    forall i | 0 <= i < n :: !Strays(states[i], labels[i], x)
  }

  lemma {:induction false} RunOwned(states: seq<State>, labels: seq<Label>, n: nat, x: SolutionId)
    requires Run(states, labels) && n < |states| && NeverStrays(states, labels, n, x)
    ensures Inv(states[n]) && OwnOk(states[n], x) && RowInv(states[n], x)
  {
    hide Inv, Enabled, Next, OwnOk, RowInv, Strays;
    RunInv(states, labels, n);
    if n == 0 {
      InitOwned(x);
    } else {
      RunOwned(states, labels, n - 1, x);
      assert Enabled(states[n - 1], labels[n - 1]) && states[n - 1 + 1] == Next(states[n - 1], labels[n - 1]);
      StepOwned(states[n - 1], labels[n - 1], x);
      StepRows(states[n - 1], labels[n - 1], x);
    }
  }

  lemma InitOwned(x: SolutionId)
    ensures OwnOk(Init(), x) && RowInv(Init(), x)
  {
  }

  // ---- No solution is in two places ----

  /** x is at l as the fields say: unlike Holds, this also counts the slot of a remover that has
      pushed its solution on and has yet to clear the slot. */
  predicate InPlace(s: State, l: Loc, x: SolutionId) {
    if l.Slot? then l.o in s.objs && s.objs[l.o].checking == Some(x) else Holds(s, l, x)
  }

  /** A slot that remove_client has pushed on and sets to NULL next (server.c:448-449). */
  predicate StaleSlot(s: State, l: Loc) { l.Slot? && Clearing(s, l.o) }

  lemma HeldOrStale(s: State, l: Loc, x: SolutionId)
    ensures Holds(s, l, x) <==> InPlace(s, l, x) && !StaleSlot(s, l)
  {
  }

  /** In every state of every run: of two different places of a solution one is a stale slot, unless
      the solution was handed out while its row was new. */
  lemma OnePlace(states: seq<State>, labels: seq<Label>, n: nat, x: SolutionId, l1: Loc, l2: Loc)
    requires Run(states, labels) && n < |states|
    requires l1 != l2 && InPlace(states[n], l1, x) && InPlace(states[n], l2, x)
    ensures StaleSlot(states[n], l1) || StaleSlot(states[n], l2) || !NeverStrays(states, labels, n, x)
  {
    hide Enabled, Next, Inv, RowInv, TidyOk, OnceOk, Holds, NeverStrays;
    if NeverStrays(states, labels, n, x) {
      RunOwned(states, labels, n, x);
      HeldOrStale(states[n], l1, x);
      HeldOrStale(states[n], l2, x);
      RecordSays(states[n], l1, x);
      RecordSays(states[n], l2, x);
    }
  }

  /** And it is at most once in every queue. */
  lemma QueuesHaveNoDuplicates(states: seq<State>, labels: seq<Label>, n: nat, o: Tid, x: SolutionId)
    requires Run(states, labels) && n < |states| && o in states[n].objs && NeverStrays(states, labels, n, x)
    ensures Once(states[n].objs[o].queue, x)
  {
    hide Run, Inv, RowInv, Recorded, TidyOk, NeverStrays, Once;
    RunOwned(states, labels, n, x);
  }

  /** The step that makes a slot stale: delivering the solution under check leaves it in the slot
      and, unless the receiver has been freed, puts it into the receiver's queue as well. */
  lemma DeliveryFromSlotDoubles(s: State, t: Tid, x: SolutionId, k: Compiler, o: Tid, c: Choice)
    requires Inv(s) && OwnOk(s, x) && Enabled(s, Act(t, c))
    requires s.threads[t] == Push(ByRemover(true), x, k, HoldChosen(o))
    ensures var s' := Next(s, Act(t, c));
            && StaleSlot(s', Slot(t)) && InPlace(s', Slot(t), x) && o in s.threads
            && (InPlace(s', Queue(o), x) <==> s.threads[o] != Removing(Done))
  {
    hide IndexOk, MutexOk, TargetsOk, ThreadsOk, Recorded, OnceOk, LocAfter, StatusAfter, ListsAfter, ClientsAfter;
    ThreadsGive(s, t);
    TidyGives(s, t);
    DeliverTarget(s, t, o);
    HasThread(s, o);
    RecordSays(s, Slot(t), x);
    RecordSays(s, Queue(o), x);
  }

  lemma HasThread(s: State, o: Tid)
    requires ThreadsOk(s) && o in s.objs
    ensures o in s.threads
  {
  }
}
