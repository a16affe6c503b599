/** Exactly when a solution that was handed out ends up with nobody to check it. */
module ServerConservation {
  import opened Options
  import opened ServerModel
  import opened ServerLocks
  import opened ServerRows
  import opened ServerOwnership

  // ---- The events of a solution ----

  /** The thread of client o has come to the end of remove_client, or there never was one. */
  predicate WasFreed(s: State, o: Tid) { o !in s.objs || (o in s.threads && s.threads[o] == Removing(Done)) }

  /** This push_solution call gives x up: it posts "FL". */
  predicate FailsPush(s: State, pc: PC, x: SolutionId) {
    pc.Push? && pc.x == x &&
    match pc.stage
    case Find => pc.k !in s.lists
    case Scan(i, best) => i >= |ListFor(s, pc.k)| && best.None?
    case _ => false
  }

  /** Nobody has x any more after this step: process_solutions overwrites it, a result clears its slot,
      its "FL" is posted, whether or not that is stored, it is pushed to a client that has been freed,
      or an extraction fails and leaves it marked. */
  predicate Drops(s: State, l: Label, x: SolutionId) {
    l.Act? && l.t in s.threads &&
    match s.threads[l.t]
    case Running(step) => Me(s, l.t).checking == Some(x) && (step.ClearHold? || (step.ProcHold? && Me(s, l.t).queue != []))
    case Push(_, y, _, stage) => FailsPush(s, s.threads[l.t], x) || (y == x && stage.HoldChosen? && WasFreed(s, stage.o))
    case Poll(poll) =>
      (match poll
       case Marking(ids, done) => done >= |ids| && !l.c.Go? && x in StillMarked(s, ids, l.c.Undone?)
       case RollingBack(marked) => x in StillMarked(s, marked, !l.c.Fail?)
       case _ => false)
    case _ => false
  }

  /** The open transaction is undone: by the rollback, or by the server because a query fails, the
      poller's or a post of another thread. */
  predicate Undoes(s: State, l: Label) {
    l.Act? && l.t in s.threads &&
    match s.threads[l.t]
    case Poll(poll) =>
      (match poll
       case PollHold => l.c.Undone?
       case Selected(ids) => ids != [] && l.c.Undone?
       case Marking(_, _) => l.c.Undone?
       case RollingBack(_) => !l.c.Fail?
       case _ => false)
    case Running(step) => step.PostHold? && step.code <= 7 && l.c.Undone?
    case Push(_, y, _, _) => FailsPush(s, s.threads[l.t], y) && l.c.Undone?
    case _ => false
  }

  /** Undoing makes x a new row again. */
  predicate Revives(s: State, l: Label, x: SolutionId) { Undoes(s, l) && NewAgain(s, x) }

  /** Undoing takes back the results stored for x in the transaction. */
  predicate TakesBack(s: State, l: Label, x: SolutionId) { Undoes(s, l) && InUndo(s, x) && s.undo.value[x] != 2 }

  /** A result for row x is stored: a reported one with a code up to 7, or "FL". */
  predicate Posts(s: State, l: Label, x: SolutionId) {
    l.Act? && l.t in s.threads && l.c.Go? && x in s.status &&
    match s.threads[l.t]
    case Running(step) => step.PostHold? && step.sid == x && step.code <= 7
    case Push(_, _, _, _) => FailsPush(s, s.threads[l.t], x)
    case _ => false
  }

  // ---- Which code has which effect ----

  lemma PollEffects(s: State, poll: PollStep, c: Choice, x: SolutionId)
    requires ChoiceFits(s, Poll(poll), c) && !poll.PollWant? && POLLER in s.threads && s.threads[POLLER] == Poll(poll)
    ensures var e, l := DecidePoll(s, poll, c).1, Act(POLLER, c);
            && (MoveOf(s, POLLER, e, x) == Some(Dropped) <==> Drops(s, l, x))
            && (UndoesTx(e) <==> Undoes(s, l)) && !e.Mark? && !e.MarkFailure? && !Posts(s, l, x)
  {
    hide StillMarked;
  }

  lemma PushEffects(s: State, t: Tid, c: Choice, x: SolutionId)
    requires t in s.threads && s.threads[t].Push? && Wants(t, s.threads[t]).None?
    ensures var e, l := Decide(s, t, s.threads[t], c).1, Act(t, c);
            && (MoveOf(s, t, e, x) == Some(Dropped) <==> Drops(s, l, x))
            && (UndoesTx(e) <==> Undoes(s, l)) && !e.Mark?
            && (x in s.status ==> (Posts(s, l, x) <==> e.MarkFailure? && e.x == x && e.c.Go?))
  {
  }

  lemma RunningEffects(s: State, t: Tid, step: ClientStep, c: Choice, x: SolutionId)
    requires t in s.threads && s.threads[t] == Running(step) && ChoiceFits(s, Running(step), c) && StepWants(t, step).None?
    requires Me(s, t).checking == Some(x) && Me(s, t).queue != [] ==> Me(s, t).queue[0] != x
    ensures var e, l := DecideRunning(s, t, step, c).1, Act(t, c);
            && (MoveOf(s, t, e, x) == Some(Dropped) <==> Drops(s, l, x))
            && (UndoesTx(e) <==> Undoes(s, l)) && !e.MarkFailure?
            && (x in s.status ==> (Posts(s, l, x) <==> e.Mark? && e.sid == x))
  {
  }

  lemma OtherEffects(s: State, t: Tid, c: Choice, x: SolutionId)
    requires t in s.threads && (s.threads[t].Entering? || s.threads[t].Removing?)
    ensures var e, l := Decide(s, t, s.threads[t], c).1, Act(t, c);
            && MoveOf(s, t, e, x) != Some(Dropped) && !Drops(s, l, x)
            && !UndoesTx(e) && !Undoes(s, l) && !e.Mark? && !e.MarkFailure? && !Posts(s, l, x)
  {
  }

  /** The slot of a running client is not also the front of its queue. */
  lemma SlotAndFront(s: State, t: Tid, x: SolutionId)
    requires Recorded(s, x) && t in s.threads && s.threads[t].Running?
    ensures Me(s, t).checking == Some(x) && Me(s, t).queue != [] ==> Me(s, t).queue[0] != x
  {
    if Me(s, t).checking == Some(x) && Me(s, t).queue != [] && t in s.objs {
      RecordSays(s, Slot(t), x);
      RecordSays(s, Queue(t), x);
    }
  }

  /** Dropping, undoing and posting, told by the code and told by the effect. */
  lemma Effects(s: State, t: Tid, c: Choice, x: SolutionId)
    requires Inv(s) && Recorded(s, x) && Enabled(s, Act(t, c))
    ensures var e, l := Decide(s, t, s.threads[t], c).1, Act(t, c);
            && (MoveOf(s, t, e, x) == Some(Dropped) <==> Drops(s, l, x))
            && (UndoesTx(e) <==> Undoes(s, l))
            && (x in s.status ==> (Posts(s, l, x) <==> (e.Mark? && e.sid == x) || (e.MarkFailure? && e.x == x && e.c.Go?)))
  {
    hide IndexOk, MutexOk, TargetsOk, Held, Recorded, MoveOf, UndoesTx, Drops, Undoes, Posts, DecideRunning, DecideRemoving, DecidePoll, DecidePush, StepWants, StageWants;
    ThreadsGive(s, t);
    match s.threads[t]
    case Entering(_, _) => OtherEffects(s, t, c, x);
    case Running(step) => SlotAndFront(s, t, x); RunningEffects(s, t, step, c, x);
    case Removing(_) => OtherEffects(s, t, c, x);
    case Poll(poll) => PollEffects(s, poll, c, x);
    case Push(_, _, _, stage) => PushEffects(s, t, c, x);
  }

  // ---- Being dropped ----

  predicate IsDropped(s: State, x: SolutionId) { x in s.loc && s.loc[x].Dropped? }

  lemma PollThread(s: State, t: Tid, c: Choice)
    requires Inv(s) && Enabled(s, Act(t, c))
    ensures OnDb(Decide(s, t, s.threads[t], c).1) ==> t == POLLER && s.threads[t].Poll?
    ensures s.threads[t].Poll? ==> t == POLLER
  {
    hide IndexOk, MutexOk, TargetsOk, ThreadsOk, OnDb, Decide, Held, Wants, ChoiceFits;
    ThreadsGive(s, t);
    Writers(s, t, c);
  }

  /** What a step moves somebody had, or it is newly handed out or given up. */
  lemma MovedWasNot(s: State, t: Tid, c: Choice, x: SolutionId)
    requires Inv(s) && OwnOk(s, x) && RowInv(s, x) && Enabled(s, Act(t, c)) && MoveOf(s, t, Decide(s, t, s.threads[t], c).1, x).Some?
    ensures !IsDropped(s, x)
  {
    hide Inv, OwnOk, RowInv, Wants, Held, ChoiceFits, Decide, MoveOf, OnDb;
    var e := Decide(s, t, s.threads[t], c).1;
    if OnDb(e) {
      PollThread(s, t, c);
      ExtractedApart(s, t, c, x);
      OnDbMoves(s, t, e, x);
    } else {
      MovedWasHeld(s, t, c, x);
    }
  }

  lemma OnDbMoves(s: State, t: Tid, e: Effect, x: SolutionId)
    requires OnDb(e) && MoveOf(s, t, e, x).Some?
    ensures (e.CommitRows? || e.GiveUp?) && x in e.ids
  {
  }

  /** One step: x is dropped after it if the step drops it, or it was and the step does not make it new. */
  lemma DroppedStep(s: State, l: Label, x: SolutionId)
    requires Inv(s) && OwnOk(s, x) && RowInv(s, x) && Enabled(s, l)
    ensures IsDropped(Next(s, l), x) <==> Drops(s, l, x) || (IsDropped(s, x) && !Revives(s, l, x))
  {
    hide Inv, TidyOk, Recorded, OnceOk, RowInv, Decide, LocAfter, StatusAfter, UndoAfter, ObjsAfter, ListsAfter, ClientsAfter, MoveOf, UndoesTx,
         Drops, Undoes, Posts, Held, Wants, ChoiceFits;
    match l
    case Act(t, c) =>
      var e := Decide(s, t, s.threads[t], c).1;
      LocIs(s, t, e, x);
      Effects(s, t, c, x);
      if MoveOf(s, t, e, x).Some? { MovedWasNot(s, t, c, x); }
    case Submit(_, _) => NoAct(s, l, x);
    case Accept(_, _) => NoAct(s, l, x);
    case Acquire(_) => NoAct(s, l, x);
  }

  lemma NoAct(s: State, l: Label, x: SolutionId)
    requires !l.Act?
    ensures !Drops(s, l, x) && !Undoes(s, l) && !Posts(s, l, x) && Next(s, l).loc == s.loc
  {
  }

  /** Step i dropped x, and no step from there to n made it new again. */
  ghost predicate DroppedAt(states: seq<State>, labels: seq<Label>, x: SolutionId, i: nat, n: nat)
    requires i < n <= |labels| && |states| == |labels| + 1
  {
    Drops(states[i], labels[i], x) && forall j | i < j < n :: !Revives(states[j], labels[j], x)
  }

  /** Some step before n dropped x for good so far. */
  ghost predicate DropStands(states: seq<State>, labels: seq<Label>, x: SolutionId, n: nat)
    requires n <= |labels| && |states| == |labels| + 1
  {
    exists i: nat :: i < n && DroppedAt(states, labels, x, i, n)
  }

  lemma DropStandsStep(states: seq<State>, labels: seq<Label>, n: nat, x: SolutionId)
    requires n < |labels| && |states| == |labels| + 1
    ensures DropStands(states, labels, x, n + 1) <==>
              Drops(states[n], labels[n], x) || (DropStands(states, labels, x, n) && !Revives(states[n], labels[n], x))
  {
    hide Drops, Revives;
    var m := n + 1;
    if Drops(states[n], labels[n], x) { assert DroppedAt(states, labels, x, n, m); }
    forall i: nat | i < n ensures DroppedAt(states, labels, x, i, m) <==> DroppedAt(states, labels, x, i, n) && !Revives(states[n], labels[n], x) {
    }
  }

  /** In every state of every run: nobody has x exactly if a step dropped it that no undoing followed
      which made it new. */
  lemma {:induction false} DroppedExactly(states: seq<State>, labels: seq<Label>, n: nat, x: SolutionId)
    requires Run(states, labels) && n < |states| && NeverStrays(states, labels, n, x)
    ensures IsDropped(states[n], x) <==> DropStands(states, labels, x, n)
  {
    hide Inv, OwnOk, RowInv, Enabled, Next, Drops, Revives, IsDropped, DropStands, Strays;
    if n == 0 {
      NothingDropped(states, labels, x);
    } else {
      var s, l := states[n - 1], labels[n - 1];
      DroppedExactly(states, labels, n - 1, x);
      RunOwned(states, labels, n - 1, x);
      assert Enabled(s, l) && states[n - 1 + 1] == Next(s, l);
      DroppedStep(s, l, x);
      DropStandsStep(states, labels, n - 1, x);
    }
  }

  lemma NothingDropped(states: seq<State>, labels: seq<Label>, x: SolutionId)
    requires |states| == |labels| + 1
    ensures !IsDropped(Init(), x) && !DropStands(states, labels, x, 0)
  {
  }

  // ---- Results ----

  predicate IsPosted(s: State, x: SolutionId) { x in s.status && s.status[x] == 2 }

  lemma StatusAt(s: State, e: Effect, x: SolutionId)
    requires RowOk(s, x) && CellOk(s, x) && x in s.status && (e == MarkRow(x) ==> s.status[x] == 0)
    ensures x in StatusAfter(s, e)
    ensures StatusAfter(s, e)[x] == 2 <==>
              || (e.Mark? && e.sid == x) || (e.MarkFailure? && e.x == x && e.c.Go?)
              || (s.status[x] == 2 && !(UndoesTx(e) && InUndo(s, x) && s.undo.value[x] != 2))
  {
  }

  lemma MarksNew(s: State, t: Tid, c: Choice, x: SolutionId)
    requires Inv(s) && RowInv(s, x) && Enabled(s, Act(t, c))
    ensures Decide(s, t, s.threads[t], c).1 == MarkRow(x) ==> x in s.status && s.status[x] == 0
  {
    hide Inv, Wants, Held;
    PollThread(s, t, c);
    var e := Decide(s, t, s.threads[t], c).1;
    if e == MarkRow(x) {
      var ids, done := s.threads[t].poll.ids, s.threads[t].poll.done;
      assert ids[done..][0] == x;
    }
  }

  lemma PostingStep(s: State, l: Label, x: SolutionId)
    requires Inv(s) && OwnOk(s, x) && RowInv(s, x) && Enabled(s, l)
    ensures IsPosted(Next(s, l), x) <==> Posts(s, l, x) || (IsPosted(s, x) && !TakesBack(s, l, x))
  {
    hide Inv, TidyOk, Recorded, OnceOk, RowOk, ExtractOk, TableOk, Decide, StatusAfter, UndoAfter, LocAfter, ObjsAfter, ListsAfter, ClientsAfter, Undoes, Posts,
         Held, Wants, ChoiceFits, UndoesTx, MoveOf, CellOk;
    CellAt(s, x);
    match l
    case Act(t, c) =>
      var e := Decide(s, t, s.threads[t], c).1;
      NotPosting(s, l, x);
      EffectCell(s, e, x);
      if x in s.status {
        Effects(s, t, c, x);
        MarksNew(s, t, c, x);
        StatusAt(s, e, x);
      }
    case Submit(sid, k) => NoAct(s, l, x); NewId(s, sid);
    case Accept(_, _) => NoAct(s, l, x);
    case Acquire(_) => NoAct(s, l, x);
  }

  lemma NewId(s: State, sid: SolutionId)
    requires TableOk(s)
    ensures sid in s.status <==> sid in s.compilerOf
  {
    CellAt(s, sid);
  }

  lemma NotPosting(s: State, l: Label, x: SolutionId)
    ensures x !in s.status ==> !Posts(s, l, x)
  {
  }

  lemma NothingPosted(states: seq<State>, labels: seq<Label>, x: SolutionId)
    requires |states| == |labels| + 1
    ensures !IsPosted(Init(), x) && !PostStands(states, labels, x, 0)
  {
  }

  /** Step i stored a result for x, and no step from there to n took it back. */
  ghost predicate PostedAt(states: seq<State>, labels: seq<Label>, x: SolutionId, i: nat, n: nat)
    requires i < n <= |labels| && |states| == |labels| + 1
  {
    Posts(states[i], labels[i], x) && forall j | i < j < n :: !TakesBack(states[j], labels[j], x)
  }

  /** A result that some step before n stored stands. */
  ghost predicate PostStands(states: seq<State>, labels: seq<Label>, x: SolutionId, n: nat)
    requires n <= |labels| && |states| == |labels| + 1
  {
    exists i: nat :: i < n && PostedAt(states, labels, x, i, n)
  }

  lemma PostStandsStep(states: seq<State>, labels: seq<Label>, n: nat, x: SolutionId)
    requires n < |labels| && |states| == |labels| + 1
    ensures PostStands(states, labels, x, n + 1) <==>
              Posts(states[n], labels[n], x) || (PostStands(states, labels, x, n) && !TakesBack(states[n], labels[n], x))
  {
    hide Posts, TakesBack;
    var m := n + 1;
    if Posts(states[n], labels[n], x) { assert PostedAt(states, labels, x, n, m); }
    forall i: nat | i < n ensures PostedAt(states, labels, x, i, m) <==> PostedAt(states, labels, x, i, n) && !TakesBack(states[n], labels[n], x) {
    }
  }

  /** In every state of every run: a row is finished exactly if a result stored for it stands. */
  lemma {:induction false} PostedExactly(states: seq<State>, labels: seq<Label>, n: nat, x: SolutionId)
    requires Run(states, labels) && n < |states| && NeverStrays(states, labels, n, x)
    ensures IsPosted(states[n], x) <==> PostStands(states, labels, x, n)
  {
    hide Inv, OwnOk, RowInv, Enabled, Next, Posts, TakesBack, IsPosted, PostStands, Strays;
    if n == 0 {
      NothingPosted(states, labels, x);
    } else {
      var s, l := states[n - 1], labels[n - 1];
      PostedExactly(states, labels, n - 1, x);
      RunOwned(states, labels, n - 1, x);
      assert Enabled(s, l) && states[n - 1 + 1] == Next(s, l);
      PostingStep(s, l, x);
      PostStandsStep(states, labels, n - 1, x);
    }
  }

  // ---- Going missing ----

  /** x is marked as handed out, no extraction is at work on it, and it is in nobody's batch, hand,
      queue or slot, except perhaps in a slot that is about to be cleared: nobody will check it. */
  ghost predicate Missing(s: State, x: SolutionId) {
    && x in s.status && s.status[x] == 1 && !BeingMarked(PollerPc(s), x)
    && forall l | InPlace(s, l, x) :: StaleSlot(s, l)
  }

  lemma MissingIsDropped(s: State, x: SolutionId)
    requires OwnOk(s, x) && RowInv(s, x)
    ensures Missing(s, x) <==> IsDropped(s, x) && !IsPosted(s, x)
  {
    hide Holds, InPlace, StaleSlot, TidyOk, OnceOk, BeingMarked, ToBeMarked, SelectedOnce;
    CellAt(s, x);
    forall l ensures Holds(s, l, x) <==> InPlace(s, l, x) && !StaleSlot(s, l) { HeldOrStale(s, l, x); }
    NowhereGone(s, x);
  }

  /** In every state of every run: a solution is missing exactly if it has been dropped, and not made
      new since, and no result stored for it stands. */
  lemma MissingExactly(states: seq<State>, labels: seq<Label>, n: nat, x: SolutionId)
    requires Run(states, labels) && n < |states| && NeverStrays(states, labels, n, x)
    ensures Missing(states[n], x) <==> DropStands(states, labels, x, n) && !PostStands(states, labels, x, n)
  {
    hide Run, Inv, OwnOk, RowInv, Missing, DropStands, PostStands, NeverStrays;
    RunOwned(states, labels, n, x);
    MissingIsDropped(states[n], x);
    DroppedExactly(states, labels, n, x);
    PostedExactly(states, labels, n, x);
  }

  /** The steps at which x goes missing: it is dropped while no result for it is stored, or it had been
      dropped and its result is taken back. */
  lemma GoesMissingExactly(states: seq<State>, labels: seq<Label>, n: nat, x: SolutionId)
    requires Run(states, labels) && n < |labels| && !Missing(states[n], x) && NeverStrays(states, labels, n + 1, x)
    ensures var s, l, s' := states[n], labels[n], states[n + 1];
            Missing(s', x) <==>
              || (Drops(s, l, x) && !IsPosted(s', x))
              || (IsPosted(s, x) && IsDropped(s, x) && TakesBack(s, l, x) && !Revives(s, l, x) && !Posts(s, l, x))
  {
    hide Inv, OwnOk, RowInv, Missing, Enabled, Next, Drops, TakesBack, Revives, Posts, Strays;
    RunOwned(states, labels, n, x);
    RunOwned(states, labels, n + 1, x);
    assert Enabled(states[n], labels[n]) && states[n + 1] == Next(states[n], labels[n]);
    MissingIsDropped(states[n], x);
    MissingIsDropped(states[n + 1], x);
    DroppedStep(states[n], labels[n], x);
    PostingStep(states[n], labels[n], x);
  }

  // ---- Conservation ----

  /** Handed out, and no undoing makes it new again. */
  predicate Settled(s: State, x: SolutionId) { x in s.loc && !NewAgain(s, x) }

  lemma HandsOutSettles(s: State, l: Label, x: SolutionId)
    requires Inv(s) && Enabled(s, l) && HandsOut(s, l, x)
    ensures Settled(Next(s, l), x)
  {
    hide Inv, Held, Wants;
    PollThread(s, l.t, l.c);
  }

  lemma EffectSettled(s: State, t: Tid, e: Effect, x: SolutionId)
    requires !NewAgain(s, x) && (x in s.status ==> s.status[x] >= 1)
    ensures UndoAfter(s, e).Some? && x in UndoAfter(s, e).value ==> UndoAfter(s, e).value[x] >= 1
  {
  }

  lemma SettledStep(s: State, l: Label, x: SolutionId)
    requires RowInv(s, x) && Enabled(s, l) && Settled(s, x)
    ensures Settled(Next(s, l), x)
  {
    hide Decide, StatusAfter, UndoAfter, LocAfter, ObjsAfter, ListsAfter, ClientsAfter, ExtractOk, TableOk, MoveOf, UndoesTx, Wants, Held, ChoiceFits;
    match l
    case Act(t, c) =>
      var e := Decide(s, t, s.threads[t], c).1;
      LocIs(s, t, e, x);
      EffectSettled(s, t, e, x);
    case Submit(_, _) =>
    case Accept(_, _) =>
    case Acquire(_) =>
  }

  lemma {:induction false} HandedStaysSettled(states: seq<State>, labels: seq<Label>, i: nat, n: nat, x: SolutionId)
    requires Run(states, labels) && i < n < |states| && HandsOut(states[i], labels[i], x) && NeverStrays(states, labels, n, x)
    ensures Settled(states[n], x)
    decreases n
  {
    hide Inv, OwnOk, RowInv, Enabled, Next, HandsOut, Settled, Strays;
    RunOwned(states, labels, n - 1, x);
    assert Enabled(states[n - 1], labels[n - 1]) && states[n - 1 + 1] == Next(states[n - 1], labels[n - 1]);
    if n == i + 1 {
      HandsOutSettles(states[i], labels[i], x);
    } else {
      HandedStaysSettled(states, labels, i, n - 1, x);
      SettledStep(states[n - 1], labels[n - 1], x);
    }
  }

  /** x is in exactly one place, or it is nowhere and finished, or it is missing; slots about to be
      cleared are left out of account. */
  ghost predicate Accounted(s: State, x: SolutionId) {
    || (exists here :: Held1(s, here, x))
    || (IsPosted(s, x) && forall l | InPlace(s, l, x) :: StaleSlot(s, l))
    || Missing(s, x)
  }

  ghost predicate Held1(s: State, here: Loc, x: SolutionId) {
    InPlace(s, here, x) && !StaleSlot(s, here) && forall l | InPlace(s, l, x) :: l == here || StaleSlot(s, l)
  }

  lemma RecordedIsAccounted(s: State, x: SolutionId)
    requires OwnOk(s, x) && RowInv(s, x) && x in s.loc
    ensures Accounted(s, x)
    ensures !IsDropped(s, x) ==> Held1(s, s.loc[x], x)
  {
    hide Holds, InPlace, StaleSlot, TidyOk, OnceOk, RowInv, Missing;
    MissingIsDropped(s, x);
    forall l ensures Holds(s, l, x) <==> InPlace(s, l, x) && !StaleSlot(s, l) { HeldOrStale(s, l, x); }
    NowhereGone(s, x);
    if !IsDropped(s, x) { assert Held1(s, s.loc[x], x); }
  }

  lemma HandsOutNew(s: State, l: Label, x: SolutionId)
    requires RowInv(s, x) && Inv(s) && Enabled(s, l) && HandsOut(s, l, x)
    ensures x !in s.loc && !Drops(s, l, x)
  {
    hide Inv, RowInv, Held, Wants;
    PollThread(s, l.t, l.c);
    ExtractedApart(s, l.t, l.c, x);
    MarkingBound(s, x);
  }

  lemma DroppedSince(states: seq<State>, labels: seq<Label>, i: nat, n: nat, x: SolutionId)
    requires Run(states, labels) && i < n < |states| && HandsOut(states[i], labels[i], x) && NeverStrays(states, labels, n, x)
    requires forall j | i < j < n :: !Drops(states[j], labels[j], x)
    ensures !IsDropped(states[n], x)
  {
    hide Inv, OwnOk, RowInv, HandsOut, Drops, Revives, Enabled, Next, Strays;
    RunOwned(states, labels, i, x);
    assert Enabled(states[i], labels[i]);
    HandsOutNew(states[i], labels[i], x);
    DroppedExactly(states, labels, n, x);
    DroppedExactly(states, labels, i, x);
    forall j: nat | j < n && DroppedAt(states, labels, x, j, n) ensures j < i && DroppedAt(states, labels, x, j, i) {
    }
  }

  /** Conservation: in every state of every run every solution handed out so far is accounted for; as
      long as no step since has dropped it, it is in exactly one place. */
  lemma Conservation(states: seq<State>, labels: seq<Label>, i: nat, n: nat, x: SolutionId)
    requires Run(states, labels) && i < n < |states| && HandsOut(states[i], labels[i], x) && NeverStrays(states, labels, n, x)
    ensures Accounted(states[n], x)
    ensures (forall j | i < j < n :: !Drops(states[j], labels[j], x)) ==> exists here :: Held1(states[n], here, x)
  {
    hide Inv, OwnOk, RowInv, HandsOut, Accounted, Held1, Drops, Enabled, Next, Strays;
    RunOwned(states, labels, n, x);
    HandedStaysSettled(states, labels, i, n, x);
    RecordedIsAccounted(states[n], x);
    if forall j | i < j < n :: !Drops(states[j], labels[j], x) { DroppedSince(states, labels, i, n, x); }
  }
}
