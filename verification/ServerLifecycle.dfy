/** The life of a row of the solutions table over every run of the dispatcher, and where the
    solutions are when the dispatcher comes to rest. */
module ServerLifecycle {
  import opened Options
  import opened ServerModel
  import opened ServerLocks
  import opened ServerRows
  import opened ServerOwnership
  import opened ServerConservation

  // ---- checking ----

  /** The poller's update of row x succeeds. */
  predicate MarksRow(s: State, l: Label, x: SolutionId) {
    && l.Act? && l.c.Go? && l.t in s.threads && s.threads[l.t].Poll? && s.threads[l.t].poll.Marking?
    && s.threads[l.t].poll.done < |s.threads[l.t].poll.ids| && s.threads[l.t].poll.ids[s.threads[l.t].poll.done] == x
  }

  /** The poller marks x although its row is finished. */
  predicate MarksFinished(s: State, l: Label, x: SolutionId) { MarksRow(s, l, x) && x in s.status && s.status[x] == 2 }

  lemma StatusFalls(s: State, e: Effect, x: SolutionId)
    requires CellOk(s, x) && x in s.status
    ensures x in StatusAfter(s, e)
    ensures StatusAfter(s, e)[x] < s.status[x] <==>
              || (UndoesTx(e) && InUndo(s, x) && s.undo.value[x] < s.status[x])
              || (e == MarkRow(x) && s.status[x] == 2)
  {
  }

  lemma FallStep(s: State, l: Label, x: SolutionId)
    requires Inv(s) && TableOk(s) && Enabled(s, l) && x in s.status
    ensures x in Next(s, l).status
    ensures Next(s, l).status[x] < s.status[x] <==>
              (Undoes(s, l) && InUndo(s, x) && s.undo.value[x] < s.status[x]) || MarksFinished(s, l, x)
  {
    hide Inv, TableOk, Decide, StatusAfter, UndoAfter, LocAfter, ObjsAfter, ListsAfter, ClientsAfter, Undoes, Held, Wants, ChoiceFits, CellOk, UndoesTx, MarksFinished;
    CellAt(s, x);
    match l
    case Act(t, c) =>
      TxEffect(s, t, c, x);
      StatusFalls(s, Decide(s, t, s.threads[t], c).1, x);
    case Submit(sid, k) => NewId(s, x); NoTx(s, l, x);
    case Accept(_, _) => NoTx(s, l, x);
    case Acquire(_) => NoTx(s, l, x);
  }

  /** What the open transaction has overwritten is what the row was when it began. */
  ghost predicate SinceBegin(states: seq<State>, labels: seq<Label>, b: nat, n: nat)
    requires b < n <= |labels| && |states| == |labels| + 1
  {
    && Begins(states[b], labels[b])
    && forall j | b < j < n :: !Begins(states[j], labels[j]) && !Undoes(states[j], labels[j]) && !Commits(states[j], labels[j])
  }

  predicate Begins(s: State, l: Label) {
    l.Act? && l.c.Go? && l.t in s.threads && s.threads[l.t].Poll? && s.threads[l.t].poll.Selected? && s.threads[l.t].poll.ids != []
  }

  predicate Commits(s: State, l: Label) {
    && l.Act? && l.c.Go? && l.t in s.threads && s.threads[l.t].Poll? && s.threads[l.t].poll.Marking?
    && s.threads[l.t].poll.done >= |s.threads[l.t].poll.ids|
  }

  lemma PollTx(s: State, poll: PollStep, c: Choice, x: SolutionId)
    requires ChoiceFits(s, Poll(poll), c) && !poll.PollWant? && POLLER in s.threads && s.threads[POLLER] == Poll(poll)
    ensures var e, l := DecidePoll(s, poll, c).1, Act(POLLER, c);
            && (Begins(s, l) <==> e.BeginTx?) && (Commits(s, l) <==> e.CommitRows?) && (Undoes(s, l) <==> UndoesTx(e))
            && (x in s.status ==> (MarksFinished(s, l, x) <==> e == MarkRow(x) && s.status[x] == 2))
  {
  }

  lemma OthersTx(s: State, t: Tid, c: Choice, x: SolutionId)
    requires t in s.threads && !s.threads[t].Poll? && Wants(t, s.threads[t]).None? && ChoiceFits(s, s.threads[t], c)
    ensures var e, l := Decide(s, t, s.threads[t], c).1, Act(t, c);
            !Begins(s, l) && !Commits(s, l) && !MarksFinished(s, l, x) && !OnDb(e) && (Undoes(s, l) <==> UndoesTx(e))
  {
    match s.threads[t]
    case Entering(_, _) =>
    case Running(_) =>
    case Removing(_) =>
    case Poll(_) =>
    case Push(_, _, _, stage) =>
  }

  lemma TxEffect(s: State, t: Tid, c: Choice, x: SolutionId)
    requires Inv(s) && Enabled(s, Act(t, c))
    ensures var e, l := Decide(s, t, s.threads[t], c).1, Act(t, c);
            && (Begins(s, l) <==> e.BeginTx?) && (Commits(s, l) <==> e.CommitRows?) && (Undoes(s, l) <==> UndoesTx(e))
            && (x in s.status ==> (MarksFinished(s, l, x) <==> e == MarkRow(x) && s.status[x] == 2))
  {
    hide Inv, Held, DecidePoll, DecideRunning, DecideRemoving, DecidePush, UndoesTx, Begins, Commits, Undoes, MarksFinished, StepWants, StageWants;
    PollThread(s, t, c);
    if s.threads[t].Poll? { PollTx(s, s.threads[t].poll, c, x); } else { OthersTx(s, t, c, x); }
  }

  /** What undoing would make of row x. */
  function Back(s: State, x: SolutionId): nat
    requires x in s.status
  {
    if InUndo(s, x) then s.undo.value[x] else s.status[x]
  }

  lemma BackEffect(s: State, e: Effect, x: SolutionId)
    requires x in s.status && s.undo.Some? && !e.BeginTx? && !e.CommitRows? && !UndoesTx(e)
    ensures UndoAfter(s, e).Some? && x in StatusAfter(s, e)
    ensures (if x in UndoAfter(s, e).value then UndoAfter(s, e).value[x] else StatusAfter(s, e)[x]) == Back(s, x)
  {
  }

  lemma BackStep(s: State, l: Label, x: SolutionId)
    requires Inv(s) && TableOk(s) && Enabled(s, l) && x in s.status
    ensures !Begins(s, l) && !Commits(s, l) && !Undoes(s, l) && s.undo.Some? ==>
              x in Next(s, l).status && Next(s, l).undo.Some? && Back(Next(s, l), x) == Back(s, x)
  {
    hide Inv, TableOk, Decide, StatusAfter, UndoAfter, LocAfter, ObjsAfter, ListsAfter, ClientsAfter, Undoes, Begins, Commits, Held, Wants, ChoiceFits, UndoesTx;
    match l
    case Act(t, c) =>
      var e := Decide(s, t, s.threads[t], c).1;
      TxEffect(s, t, c, x);
      if s.undo.Some? && !e.BeginTx? && !e.CommitRows? && !UndoesTx(e) { BackEffect(s, e, x); }
    case Submit(sid, k) => NewId(s, x);
    case Accept(_, _) =>
    case Acquire(_) =>
  }

  lemma NoTx(s: State, l: Label, x: SolutionId)
    requires !l.Act?
    ensures !Begins(s, l) && !Commits(s, l) && !Undoes(s, l) && !MarksFinished(s, l, x)
  {
  }

  lemma TxWrites(s: State, e: Effect)
    ensures e.BeginTx? ==> UndoAfter(s, e) == Some(map[]) && StatusAfter(s, e) == s.status
    ensures e.CommitRows? || UndoesTx(e) ==> UndoAfter(s, e).None?
    ensures !e.BeginTx? && !e.CommitRows? && !UndoesTx(e) ==> UndoAfter(s, e).Some? == s.undo.Some?
  {
  }

  lemma StatusKeys(s: State, e: Effect)
    requires TableOk(s)
    ensures StatusAfter(s, e).Keys == s.status.Keys
  {
    hide StatusAfter, UndoAfter, CellOk;
    forall x ensures x in StatusAfter(s, e) <==> x in s.status { CellAt(s, x); EffectCell(s, e, x); }
  }

  /** A row as it was; one that did not exist yet counts as new. */
  function ValueAt(s: State, x: SolutionId): nat { if x in s.status then s.status[x] else 0 }

  lemma NewRowStep(s: State, l: Label, x: SolutionId)
    requires Inv(s) && TableOk(s) && Enabled(s, l) && x !in s.status && x in Next(s, l).status
    ensures Back(Next(s, l), x) == 0
  {
    hide Inv, TableOk, Decide, StatusAfter, UndoAfter, LocAfter, ObjsAfter, ListsAfter, ClientsAfter, Held, Wants, ChoiceFits;
    CellAt(s, x);
    match l
    case Act(t, c) => StatusKeys(s, Decide(s, t, s.threads[t], c).1);
    case Submit(_, _) =>
    case Accept(_, _) =>
    case Acquire(_) =>
  }

  lemma SinceBeginStep(states: seq<State>, labels: seq<Label>, b: nat, n: nat)
    requires b < n <= |labels| && |states| == |labels| + 1 && SinceBegin(states, labels, b, n)
    ensures n == b + 1 ==> Begins(states[b], labels[b])
    ensures n > b + 1 ==> SinceBegin(states, labels, b, n - 1)
    ensures n > b + 1 ==> var s, l := states[n - 1], labels[n - 1]; !Begins(s, l) && !Commits(s, l) && !Undoes(s, l)
  {
    hide Begins, Commits, Undoes;
  }

  lemma BackFirst(s: State, l: Label, x: SolutionId)
    requires Inv(s) && TableOk(s) && Enabled(s, l) && Begins(s, l) && x in Next(s, l).status
    ensures Next(s, l).undo.Some? && Back(Next(s, l), x) == ValueAt(s, x)
  {
    hide Inv, TableOk, Enabled, Next, Begins;
    OpenStep(s, l);
  }

  lemma BackNext(s: State, l: Label, x: SolutionId)
    requires Inv(s) && TableOk(s) && Enabled(s, l) && !Begins(s, l) && !Commits(s, l) && !Undoes(s, l) && s.undo.Some?
    requires x in Next(s, l).status
    ensures Next(s, l).undo.Some? && Back(Next(s, l), x) == if x in s.status then Back(s, x) else 0
  {
    hide Inv, TableOk, Enabled, Next, Begins, Commits, Undoes, Back;
    OpenStep(s, l);
    if x in s.status { BackStep(s, l, x); } else { NewRowStep(s, l, x); }
  }

  /** Inside the transaction begun at b, undoing would restore what the row was then. */
  lemma {:induction false} BackIsBegin(states: seq<State>, labels: seq<Label>, b: nat, n: nat, x: SolutionId)
    requires Run(states, labels) && b < n <= |labels| && SinceBegin(states, labels, b, n) && x in states[n].status
    ensures states[n].undo.Some? && Back(states[n], x) == ValueAt(states[b], x)
    decreases n
  {
    hide Inv, Enabled, Next, Begins, Commits, Undoes, SinceBegin, Back;
    var s, l := states[n - 1], labels[n - 1];
    RunTable(states, labels, n - 1);
    assert Enabled(s, l) && states[n - 1 + 1] == Next(s, l);
    SinceBeginStep(states, labels, b, n);
    if n == b + 1 {
      BackFirst(s, l, x);
    } else {
      StillOpen(states, labels, b, n - 1);
      BackNext(s, l, x);
      if x in s.status { BackIsBegin(states, labels, b, n - 1, x); } else { StillNew(states, labels, b, n - 1, x); }
    }
  }

  lemma OpenStep(s: State, l: Label)
    requires Inv(s) && TableOk(s) && Enabled(s, l)
    ensures Begins(s, l) ==> Next(s, l).undo == Some(map[]) && Next(s, l).status == s.status
    ensures !Begins(s, l) && !Commits(s, l) && !Undoes(s, l) ==> Next(s, l).undo.Some? == s.undo.Some?
    ensures !Begins(s, l) && (Commits(s, l) || Undoes(s, l)) ==> Next(s, l).undo.None?
    ensures s.status.Keys <= Next(s, l).status.Keys
  {
    hide Inv, TableOk, Decide, StatusAfter, UndoAfter, LocAfter, ObjsAfter, ListsAfter, ClientsAfter, Undoes, Begins, Commits, Held, Wants, ChoiceFits, UndoesTx;
    match l
    case Act(t, c) => TxEffect(s, t, c, 0); TxWrites(s, Decide(s, t, s.threads[t], c).1); StatusKeys(s, Decide(s, t, s.threads[t], c).1);
    case Submit(_, _) => NoTx(s, l, 0);
    case Accept(_, _) => NoTx(s, l, 0);
    case Acquire(_) => NoTx(s, l, 0);
  }

  lemma {:induction false} StillOpen(states: seq<State>, labels: seq<Label>, b: nat, n: nat)
    requires Run(states, labels) && b < n <= |labels| && SinceBegin(states, labels, b, n)
    ensures states[n].undo.Some?
    decreases n
  {
    hide Inv, Enabled, Next, Begins, Commits, Undoes, SinceBegin;
    RunTable(states, labels, n - 1);
    assert Enabled(states[n - 1], labels[n - 1]) && states[n - 1 + 1] == Next(states[n - 1], labels[n - 1]);
    OpenStep(states[n - 1], labels[n - 1]);
    SinceBeginStep(states, labels, b, n);
    if n > b + 1 { StillOpen(states, labels, b, n - 1); }
  }

  lemma {:induction false} StillNew(states: seq<State>, labels: seq<Label>, b: nat, n: nat, x: SolutionId)
    requires Run(states, labels) && b <= n <= |labels| && x !in states[n].status
    ensures x !in states[b].status
    decreases n
  {
    hide Inv, Enabled, Next, Begins, Commits, Undoes;
    if b < n {
      RunTable(states, labels, n - 1);
      assert Enabled(states[n - 1], labels[n - 1]) && states[n - 1 + 1] == Next(states[n - 1], labels[n - 1]);
      OpenStep(states[n - 1], labels[n - 1]);
      StillNew(states, labels, b, n - 1, x);
    }
  }

  /** An open transaction was begun somewhere. */
  lemma {:induction false} OpenWasBegun(states: seq<State>, labels: seq<Label>, n: nat) returns (b: nat)
    requires Run(states, labels) && n <= |labels| && states[n].undo.Some?
    ensures b < n && SinceBegin(states, labels, b, n)
  {
    hide Inv, Enabled, Next, Begins, Commits, Undoes;
    assert n > 0;
    var s, l := states[n - 1], labels[n - 1];
    RunTable(states, labels, n - 1);
    assert Enabled(s, l) && states[n - 1 + 1] == Next(s, l);
    OpenStep(s, l);
    if Begins(s, l) {
      b := n - 1;
    } else {
      b := OpenWasBegun(states, labels, n - 1);
    }
  }

  /** Over every run and for every row: its checking falls at step n if and only if that step undoes the
      transaction that a step b began, and the row was lower then than it is now, or marks a row that
      was finished after the select. */
  lemma CheckingFallsExactly(states: seq<State>, labels: seq<Label>, n: nat, x: SolutionId)
    requires Run(states, labels) && n < |labels| && x in states[n].status
    ensures x in states[n + 1].status
    ensures states[n + 1].status[x] < states[n].status[x] <==>
              || (&& Undoes(states[n], labels[n])
                  && exists b: nat :: b < n && SinceBegin(states, labels, b, n) && ValueAt(states[b], x) < states[n].status[x])
              || MarksFinished(states[n], labels[n], x)
  {
    hide Inv, TableOk, Enabled, Next, Begins, Commits, Undoes, SinceBegin, MarksFinished;
    RunTable(states, labels, n);
    var s, l := states[n], labels[n];
    assert Enabled(s, l) && states[n + 1] == Next(s, l);
    FallStep(s, l, x);
    if Undoes(s, l) && s.undo.Some? {
      var b := OpenWasBegun(states, labels, n);
      BackIsBegin(states, labels, b, n, x);
    }
    forall b: nat | b < n && SinceBegin(states, labels, b, n) ensures s.undo.Some? && Back(s, x) == ValueAt(states[b], x) {
      BackIsBegin(states, labels, b, n, x);
    }
  }

  lemma {:induction false} RunTable(states: seq<State>, labels: seq<Label>, n: nat)
    requires Run(states, labels) && n < |states|
    ensures Inv(states[n]) && TableOk(states[n])
  {
    hide Inv, Enabled, Next;
    RunInv(states, labels, n);
    if n > 0 {
      RunTable(states, labels, n - 1);
      assert Enabled(states[n - 1], labels[n - 1]) && states[n - 1 + 1] == Next(states[n - 1], labels[n - 1]);
      PollerThere(states[n - 1]);
      StepTable(states[n - 1], labels[n - 1]);
    }
  }

  // ---- Handing out ----

  /** x is among the rows that the extraction under way has selected. */
  predicate Chosen(pc: PC, x: SolutionId) {
    pc.Poll? &&
    match pc.poll
    case Selected(ids) => x in ids
    case Marking(ids, _) => x in ids
    case _ => false
  }

  /** The row is not new, undoing does not make it new, and no extraction has selected it. */
  predicate Firm(s: State, x: SolutionId) {
    x in s.status && s.status[x] >= 1 && !NewAgain(s, x) && !Chosen(PollerPc(s), x)
  }

  lemma EffectFirm(s: State, e: Effect, x: SolutionId)
    requires x in s.status && s.status[x] >= 1 && !NewAgain(s, x)
    ensures x in StatusAfter(s, e) && StatusAfter(s, e)[x] >= 1
    ensures UndoAfter(s, e).Some? && x in UndoAfter(s, e).value ==> UndoAfter(s, e).value[x] >= 1
  {
  }

  lemma ChosenStep(s: State, t: Tid, c: Choice, x: SolutionId)
    requires t in s.threads && ChoiceFits(s, s.threads[t], c) && x in s.status && s.status[x] >= 1 && !Chosen(s.threads[t], x)
    ensures !Chosen(Decide(s, t, s.threads[t], c).0, x)
  {
    match s.threads[t]
    case Entering(_, _) =>
    case Running(_) =>
    case Removing(_) =>
    case Poll(_) =>
    case Push(_, _, _, stage) =>
  }

  lemma GotChosen(s: State, pc: PC, x: SolutionId)
    ensures Chosen(Got(s, pc), x) ==> Chosen(pc, x)
  {
  }

  lemma FirmStep(s: State, l: Label, x: SolutionId)
    requires TableOk(s) && Enabled(s, l) && Firm(s, x) && POLLER in s.threads
    ensures Firm(Next(s, l), x)
  {
    hide TableOk, Decide, Got, StatusAfter, UndoAfter, LocAfter, ObjsAfter, ListsAfter, ClientsAfter, Wants, Held, ChoiceFits, Chosen;
    match l
    case Act(t, c) =>
      EffectFirm(s, Decide(s, t, s.threads[t], c).1, x);
      if t == POLLER { ChosenStep(s, t, c, x); }
    case Submit(_, _) => NewId(s, x);
    case Accept(t, ks) =>
    case Acquire(t) => GotChosen(s, s.threads[t], x);
  }

  lemma HandsOutFirm(s: State, l: Label, x: SolutionId)
    requires Inv(s) && Enabled(s, l) && HandsOut(s, l, x) && !Strays(s, l, x)
    ensures Firm(Next(s, l), x)
  {
    hide Inv, Held, Wants, LocAfter, ObjsAfter, ListsAfter, ClientsAfter;
    PollThread(s, l.t, l.c);
  }

  /** A row that is handed out while it is marked never counts as new again, and no extraction selects
      it again. */
  lemma {:induction false} HandedStaysHanded(states: seq<State>, labels: seq<Label>, i: nat, n: nat, x: SolutionId)
    requires Run(states, labels) && i < n < |states| && HandsOut(states[i], labels[i], x) && !Strays(states[i], labels[i], x)
    ensures Firm(states[n], x)
    decreases n
  {
    hide Inv, TableOk, Enabled, Next, HandsOut, Strays, Firm;
    RunTable(states, labels, n - 1);
    assert Enabled(states[n - 1], labels[n - 1]) && states[n - 1 + 1] == Next(states[n - 1], labels[n - 1]);
    if n == i + 1 {
      HandsOutFirm(states[i], labels[i], x);
    } else {
      HandedStaysHanded(states, labels, i, n - 1, x);
      PollerThere(states[n - 1]);
      FirmStep(states[n - 1], labels[n - 1], x);
    }
  }

  lemma HandsOutChosen(s: State, l: Label, x: SolutionId)
    requires Inv(s) && Enabled(s, l) && HandsOut(s, l, x)
    ensures !Firm(s, x)
  {
    hide Inv, Held, Wants;
    PollThread(s, l.t, l.c);
  }

  /** In the whole run the poller hands a row out twice only if it was new at the first commit. */
  lemma HandedOutOnce(states: seq<State>, labels: seq<Label>, i: nat, j: nat, x: SolutionId)
    requires Run(states, labels) && i < j < |labels| && HandsOut(states[i], labels[i], x) && HandsOut(states[j], labels[j], x)
    ensures Strays(states[i], labels[i], x)
  {
    hide Inv, Enabled, Next, HandsOut, Strays, Firm;
    if !Strays(states[i], labels[i], x) {
      HandedStaysHanded(states, labels, i, j, x);
      RunInv(states, labels, j);
      assert Enabled(states[j], labels[j]);
      HandsOutChosen(states[j], labels[j], x);
    }
  }

  // ---- At rest ----

  /** The poller has no batch in hand, and no remove_client is under way. */
  ghost predicate AtRest(s: State) {
    && POLLER in s.threads && s.threads[POLLER].Poll? && !s.threads[POLLER].poll.Batch?
    && forall t | t in s.threads :: !s.threads[t].Push? && (s.threads[t].Removing? ==> s.threads[t].drain.Done?)
  }

  /** x is queued at, or being checked by, the live client o. */
  ghost predicate WithClient(s: State, x: SolutionId, o: Tid) {
    && o in s.objs && (x in s.objs[o].queue || s.objs[o].checking == Some(x))
    && s.objs[o].id in s.clients && s.clients[s.objs[o].id] == o
  }

  lemma RestingPlace(s: State, l: Loc, x: SolutionId)
    requires Inv(s) && OwnOk(s, x) && AtRest(s) && InPlace(s, l, x)
    ensures !StaleSlot(s, l) && (l.Queue? || l.Slot?) && WithClient(s, x, l.o)
  {
    hide IndexOk, MutexOk, TargetsOk, Recorded, OnceOk;
    if l.Queue? || l.Slot? {
      assert l.o in s.threads;
      ThreadsGive(s, l.o);
      TidyGives(s, l.o);
    }
  }

  lemma WithClientInPlace(s: State, x: SolutionId, o: Tid)
    requires WithClient(s, x, o)
    ensures InPlace(s, Queue(o), x) || InPlace(s, Slot(o), x)
  {
  }

  /** In a run that has come to rest each solution handed out is with exactly one client, one in
      clients_map, or with none, and then finished or missing. */
  lemma RestingSolutions(states: seq<State>, labels: seq<Label>, i: nat, n: nat, x: SolutionId)
    requires Run(states, labels) && i < n < |states| && HandsOut(states[i], labels[i], x) && AtRest(states[n]) && NeverStrays(states, labels, n, x)
    ensures var s := states[n];
            || (exists o :: WithClient(s, x, o) && forall o' | WithClient(s, x, o') :: o' == o)
            || ((IsPosted(s, x) || Missing(s, x)) && forall o :: !WithClient(s, x, o))
  {
    hide Inv, OwnOk, RowInv, Accounted, WithClient, AtRest, HandsOut, Enabled, Next, Missing, Strays;
    Conservation(states, labels, i, n, x);
    RunOwned(states, labels, n, x);
    RestingAccounted(states[n], x);
  }

  lemma RestingHeld(s: State, here: Loc, x: SolutionId)
    requires Inv(s) && OwnOk(s, x) && AtRest(s) && Held1(s, here, x)
    ensures exists o :: WithClient(s, x, o) && forall o' | WithClient(s, x, o') :: o' == o
  {
    hide Inv, OwnOk, InPlace, StaleSlot, WithClient, AtRest;
    RestingPlace(s, here, x);
    forall o | WithClient(s, x, o) ensures o == here.o {
      WithClientInPlace(s, x, o);
      var l := if InPlace(s, Queue(o), x) then Queue(o) else Slot(o);
      RestingPlace(s, l, x);
      assert l == here;
    }
  }

  lemma RestingNowhere(s: State, x: SolutionId)
    requires Inv(s) && OwnOk(s, x) && AtRest(s) && forall l | InPlace(s, l, x) :: StaleSlot(s, l)
    ensures forall o :: !WithClient(s, x, o)
  {
    hide Inv, OwnOk, InPlace, StaleSlot, WithClient, AtRest;
    forall o | WithClient(s, x, o) ensures false {
      WithClientInPlace(s, x, o);
      RestingPlace(s, if InPlace(s, Queue(o), x) then Queue(o) else Slot(o), x);
    }
  }

  lemma RestingAccounted(s: State, x: SolutionId)
    requires Inv(s) && OwnOk(s, x) && AtRest(s) && Accounted(s, x)
    ensures || (exists o :: WithClient(s, x, o) && forall o' | WithClient(s, x, o') :: o' == o)
            || ((IsPosted(s, x) || Missing(s, x)) && forall o :: !WithClient(s, x, o))
  {
    hide Inv, OwnOk, InPlace, StaleSlot, WithClient, AtRest, BeingMarked, Held1;
    if here :| Held1(s, here, x) {
      RestingHeld(s, here, x);
    } else {
      RestingNowhere(s, x);
    }
  }
}
