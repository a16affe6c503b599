/** Exactly when the poller hands out a row that is new: another thread's query has undone the row's
    mark. */
module ServerStray {
  import opened Options
  import opened ServerModel
  import opened ServerLocks
  import opened ServerRows
  import opened ServerOwnership
  import opened ServerConservation
  import opened ServerLifecycle

  // ---- Marks and what became of them ----

  /** Step m marked x, and no transaction has begun since. */
  ghost predicate MarkedSince(states: seq<State>, labels: seq<Label>, x: SolutionId, m: nat, n: nat)
    requires n <= |labels| && |states| == |labels| + 1
  {
    m < n && MarksRow(states[m], labels[m], x) && forall j | m < j < n :: !Begins(states[j], labels[j])
  }

  ghost predicate UndoneSince(states: seq<State>, labels: seq<Label>, m: nat, n: nat)
    requires n <= |labels| && |states| == |labels| + 1
  {
    exists r | m < r < n :: Undoes(states[r], labels[r])
  }

  /** The same, and the transaction was still open then. */
  ghost predicate MarkedInside(states: seq<State>, labels: seq<Label>, x: SolutionId, m: nat, n: nat)
    requires n <= |labels| && |states| == |labels| + 1
  {
    MarkedSince(states, labels, x, m, n) && states[m].undo.Some?
  }

  ghost predicate HasMark(states: seq<State>, labels: seq<Label>, x: SolutionId, n: nat)
    requires n <= |labels| && |states| == |labels| + 1
  {
    exists m: nat :: MarkedSince(states, labels, x, m, n)
  }

  /** x was marked inside the transaction, which is open still. */
  ghost predicate MarkPending(states: seq<State>, labels: seq<Label>, x: SolutionId, n: nat)
    requires n <= |labels| && |states| == |labels| + 1
  {
    exists m: nat :: MarkedInside(states, labels, x, m, n) && !UndoneSince(states, labels, m, n)
  }

  /** x was marked inside the transaction, which has been undone since. */
  ghost predicate MarkUndone(states: seq<State>, labels: seq<Label>, x: SolutionId, n: nat)
    requires n <= |labels| && |states| == |labels| + 1
  {
    exists m: nat :: MarkedInside(states, labels, x, m, n) && UndoneSince(states, labels, m, n)
  }

  lemma SinceStep(states: seq<State>, labels: seq<Label>, x: SolutionId, m: nat, n: nat)
    requires n < |labels| && |states| == |labels| + 1
    ensures var n' := n + 1;
            && (m < n ==> (MarkedSince(states, labels, x, m, n') <==> MarkedSince(states, labels, x, m, n) && !Begins(states[n], labels[n])))
            && (m < n ==> (UndoneSince(states, labels, m, n') <==> UndoneSince(states, labels, m, n) || Undoes(states[n], labels[n])))
            && (m == n ==> (MarkedSince(states, labels, x, m, n') <==> MarksRow(states[n], labels[n], x)))
            && (m == n ==> !UndoneSince(states, labels, m, n'))
            && (m > n ==> !MarkedSince(states, labels, x, m, n'))
            && (m >= n ==> !MarkedSince(states, labels, x, m, n))
  {
    hide MarksRow, Begins, Undoes;
  }

  lemma NotBoth(s: State, l: Label, x: SolutionId)
    ensures MarksRow(s, l, x) ==> !Begins(s, l) && !Undoes(s, l)
  {
  }

  /** What one more step makes of the marks. */
  lemma MarksStep(states: seq<State>, labels: seq<Label>, x: SolutionId, n: nat)
    requires n < |labels| && |states| == |labels| + 1
    ensures var s, l, n' := states[n], labels[n], n + 1;
            && (Begins(s, l) ==> !HasMark(states, labels, x, n'))
            && (!Begins(s, l) && !MarksRow(s, l, x) ==>
                  && (HasMark(states, labels, x, n') ==> HasMark(states, labels, x, n))
                  && (MarkPending(states, labels, x, n') <==> MarkPending(states, labels, x, n) && !Undoes(s, l))
                  && (MarkUndone(states, labels, x, n') <==> MarkUndone(states, labels, x, n) || (MarkPending(states, labels, x, n) && Undoes(s, l))))
            && (MarksRow(s, l, x) && !HasMark(states, labels, x, n) ==>
                  (MarkPending(states, labels, x, n') <==> s.undo.Some?) && !MarkUndone(states, labels, x, n'))
  {
    hide MarksRow, Begins, Undoes, MarkedSince, UndoneSince;
    var s, l, n' := states[n], labels[n], n + 1;
    NotBoth(s, l, x);
    forall m: nat
      ensures MarkedSince(states, labels, x, m, n') <==>
                (m < n && MarkedSince(states, labels, x, m, n) && !Begins(s, l)) || (m == n && MarksRow(s, l, x))
      ensures MarkedSince(states, labels, x, m, n) ==> m < n
      ensures m < n ==> (UndoneSince(states, labels, m, n') <==> UndoneSince(states, labels, m, n) || Undoes(s, l))
      ensures m == n ==> !UndoneSince(states, labels, m, n')
    {
      SinceStep(states, labels, x, m, n);
    }
    if !Begins(s, l) && !MarksRow(s, l, x) {
      forall m: nat ensures MarkedInside(states, labels, x, m, n') <==> MarkedInside(states, labels, x, m, n) { }
    }
    if MarksRow(s, l, x) { assert MarkedSince(states, labels, x, n, n') && !UndoneSince(states, labels, n, n'); }
  }

  // ---- The row while it is being extracted ----

  ghost predicate Tracked(s: State, x: SolutionId, has: bool, pending: bool, undone: bool) {
    var pc := PollerPc(s);
    && (pc.Poll? && pc.poll.Marking? && ToBeMarked(pc, x) ==> !has)
    && (BeingMarked(pc, x) ==> x in s.status && (s.status[x] == 0 <==> undone) && (InUndo(s, x) <==> pending))
  }

  /** What a step means for a row that is being extracted. */
  ghost predicate Traces(s: State, l: Label, s': State, x: SolutionId) {
    var pc, pc' := PollerPc(s), PollerPc(s');
    && (pc'.Poll? && pc'.poll.Marking? && ToBeMarked(pc', x) ==>
          || Begins(s, l)
          || (pc.Poll? && pc.poll.Marking? && ToBeMarked(pc, x) && !MarksRow(s, l, x)))
    && (BeingMarked(pc', x) ==>
          || (&& MarksRow(s, l, x) && pc.Poll? && pc.poll.Marking? && ToBeMarked(pc, x)
              && x in s'.status && s'.status[x] == 1 && (InUndo(s', x) <==> s.undo.Some?))
          || (&& BeingMarked(pc, x) && !Begins(s, l) && !MarksRow(s, l, x)
              && x in s'.status && (s'.status[x] == 0 <==> x in s.status && (s.status[x] == 0 || (InUndo(s, x) && Undoes(s, l))))
              && (InUndo(s', x) <==> InUndo(s, x) && !Undoes(s, l))))
  }

  lemma TrackedStep(states: seq<State>, labels: seq<Label>, x: SolutionId, n: nat)
    requires n < |labels| && |states| == |labels| + 1 && Traces(states[n], labels[n], states[n + 1], x)
    requires Tracked(states[n], x, HasMark(states, labels, x, n), MarkPending(states, labels, x, n), MarkUndone(states, labels, x, n))
    ensures var n' := n + 1;
            Tracked(states[n'], x, HasMark(states, labels, x, n'), MarkPending(states, labels, x, n'), MarkUndone(states, labels, x, n'))
  {
    hide MarksRow, Begins, Undoes, HasMark, MarkPending, MarkUndone, BeingMarked, ToBeMarked, PollerPc;
    MarksStep(states, labels, x, n);
    NotBoth(states[n], labels[n], x);
  }

  /** A row that an effect does not write: it changes only where undoing restores it. */
  lemma EffectAt(s: State, e: Effect, x: SolutionId)
    requires x in s.status && !(e.Mark? && e.sid == x) && !(e.MarkFailure? && e.x == x) && e != MarkRow(x) && !e.BeginTx? && !e.CommitRows?
    ensures x in StatusAfter(s, e) && StatusAfter(s, e)[x] == if UndoesTx(e) && InUndo(s, x) then s.undo.value[x] else s.status[x]
    ensures UndoAfter(s, e).Some? && x in UndoAfter(s, e).value <==> InUndo(s, x) && !UndoesTx(e)
  {
  }

  lemma MarkAt(s: State, x: SolutionId)
    requires x in s.status && !InUndo(s, x)
    ensures var e := MarkRow(x);
            && x in StatusAfter(s, e) && StatusAfter(s, e)[x] == 1
            && (UndoAfter(s, e).Some? && x in UndoAfter(s, e).value <==> s.undo.Some?)
  {
  }

  lemma SamePollTraces(s: State, l: Label, s': State, x: SolutionId)
    requires SamePoll(s, s') && !Begins(s, l) && !MarksRow(s, l, x)
    requires BeingMarked(PollerPc(s), x) ==>
               && x in s.status && x in s'.status
               && (s'.status[x] == 0 <==> s.status[x] == 0 || (InUndo(s, x) && Undoes(s, l)))
               && (InUndo(s', x) <==> InUndo(s, x) && !Undoes(s, l))
    ensures Traces(s, l, s', x)
  {
    hide BeingMarked, ToBeMarked, SelectedOnce, Begins, MarksRow, Undoes, InUndo;
    SamePollMarks(s, s', x);
  }

  lemma NoMarking(s: State, l: Label, x: SolutionId)
    requires !l.Act?
    ensures !Begins(s, l) && !MarksRow(s, l, x) && !Undoes(s, l)
  {
  }

  lemma OthersWriteNot(s: State, t: Tid, c: Choice, x: SolutionId)
    requires Inv(s) && OwnOk(s, x) && RowInv(s, x) && Enabled(s, Act(t, c)) && !s.threads[t].Poll? && BeingMarked(PollerPc(s), x)
    ensures var e := Decide(s, t, s.threads[t], c).1;
            x in s.status && !(e.Mark? && e.sid == x) && !(e.MarkFailure? && e.x == x) && (InUndo(s, x) ==> s.undo.value[x] == 0)
  {
    hide IndexOk, TargetsOk, ThreadsOk, OwnOk, TableOk, RowOk, Decide, Held, Wants, ChoiceFits, OnDb, BeingMarked, ToBeMarked, SelectedOnce, PollerPc;
    Writers(s, t, c);
    PushedInLoc(s, t, x);
    PollerHolds(s);
    NotExtracting(s, x);
  }

  lemma OthersTrace(s: State, t: Tid, c: Choice, x: SolutionId)
    requires Inv(s) && OwnOk(s, x) && RowInv(s, x) && Enabled(s, Act(t, c)) && !s.threads[t].Poll?
    ensures Traces(s, Act(t, c), Next(s, Act(t, c)), x)
  {
    hide Inv, OwnOk, RowInv, Decide, StatusAfter, UndoAfter, LocAfter, ObjsAfter, ListsAfter, ClientsAfter, Held, Wants, ChoiceFits, OnDb, UndoesTx,
         BeingMarked, PollerPc, SamePoll, Traces, Begins, Commits, Undoes, MarksFinished;
    var e := Decide(s, t, s.threads[t], c).1;
    TxEffect(s, t, c, x);
    Writers(s, t, c);
    NotPollEffect(e);
    OthersPoll(s, t, c);
    if BeingMarked(PollerPc(s), x) {
      OthersWriteNot(s, t, c, x);
      EffectAt(s, e, x);
    }
    SamePollTraces(s, Act(t, c), Next(s, Act(t, c)), x);
  }

  lemma NotPollEffect(e: Effect)
    ensures !OnDb(e) ==> !e.BeginTx? && !e.CommitRows? && !e.MarkRow?
  {
  }

  lemma MarkTrace(s: State, ids: seq<SolutionId>, done: nat, s': State, x: SolutionId)
    requires RowInv(s, x) && POLLER in s.threads && s.threads[POLLER] == Poll(Marking(ids, done)) && done < |ids|
    requires s' == Perform(s, POLLER, MarkRow(ids[done]), Poll(Marking(ids, done + 1)))
    ensures Traces(s, Act(POLLER, Go), s', x)
  {
    hide TableOk, StatusAfter, UndoAfter, LocAfter, ObjsAfter, ListsAfter, ClientsAfter, Begins;
    CommitsNothing(s, ids, done);
    var y := ids[done];
    assert ids[..done + 1] == ids[..done] + [y] && ids[done..] == [y] + ids[done + 1..];
    if x == y {
      LaterDiffers(ids, done, x);
      MarkAt(s, x);
    } else if x in s.status {
      EffectAt(s, MarkRow(y), x);
    }
  }

  lemma CommitsNothing(s: State, ids: seq<SolutionId>, done: nat)
    requires POLLER in s.threads && s.threads[POLLER] == Poll(Marking(ids, done))
    ensures !Begins(s, Act(POLLER, Go)) && !Undoes(s, Act(POLLER, Go))
  {
  }

  lemma FailTrace(s: State, ids: seq<SolutionId>, done: nat, c: Choice, s': State, x: SolutionId)
    requires RowInv(s, x) && POLLER in s.threads && s.threads[POLLER] == Poll(Marking(ids, done)) && done < |ids| && (c.Fail? || c.Undone?)
    requires s' == Perform(s, POLLER, if c.Undone? then UndoTx else Nothing, Poll(RollingBack(ids[..done])))
    ensures Traces(s, Act(POLLER, c), s', x)
  {
    hide TableOk, StatusAfter, UndoAfter, LocAfter, ObjsAfter, ListsAfter, ClientsAfter;
    if x in s.status { EffectAt(s, if c.Undone? then UndoTx else Nothing, x); }
  }

  lemma PollerTrace(s: State, poll: PollStep, c: Choice, x: SolutionId)
    requires RowInv(s, x) && Enabled(s, Act(POLLER, c)) && s.threads[POLLER] == Poll(poll)
    ensures Traces(s, Act(POLLER, c), Next(s, Act(POLLER, c)), x)
  {
    hide RowInv, StatusAfter, UndoAfter, LocAfter, ObjsAfter, ListsAfter, ClientsAfter, FreshRows, Held;
    var s' := Next(s, Act(POLLER, c));
    match poll
    case Marking(ids, done) =>
      if done < |ids| {
        if c.Go? { MarkTrace(s, ids, done, s', x); } else { FailTrace(s, ids, done, c, s', x); }
      }
    case Selected(ids) =>
    case _ =>
  }

  lemma StepTraces(s: State, l: Label, x: SolutionId)
    requires Inv(s) && OwnOk(s, x) && RowInv(s, x) && Enabled(s, l)
    ensures Traces(s, l, Next(s, l), x)
  {
    hide OwnOk, IndexOk, MutexOk, TargetsOk, Decide, Got, Perform, Held, ChoiceFits, Traces, TableOk, RowOk, BeingMarked, ToBeMarked, SelectedOnce, Begins, MarksRow, Undoes;
    match l
    case Act(t, c) =>
      ThreadsGive(s, t);
      if s.threads[t].Poll? { PollerTrace(s, s.threads[t].poll, c, x); } else { OthersTrace(s, t, c, x); }
    case Submit(sid, k) => NoMarking(s, l, x); NewId(s, x); SamePollTraces(s, l, Next(s, l), x);
    case Accept(t, ks) => NoMarking(s, l, x); SamePollTraces(s, l, Next(s, l), x);
    case Acquire(t) => NoMarking(s, l, x); GotPoll(s, t); SamePollTraces(s, l, Next(s, l), x);
  }

  // ---- Runs ----

  lemma {:induction false} RunTracked(states: seq<State>, labels: seq<Label>, x: SolutionId, n: nat)
    requires Run(states, labels) && n <= |labels| && NeverStrays(states, labels, n, x)
    ensures Tracked(states[n], x, HasMark(states, labels, x, n), MarkPending(states, labels, x, n), MarkUndone(states, labels, x, n))
  {
    hide Inv, OwnOk, RowInv, Enabled, Next, Strays, Traces, Tracked, HasMark, MarkPending, MarkUndone;
    if n == 0 {
      InitTracked(x, HasMark(states, labels, x, 0), MarkPending(states, labels, x, 0), MarkUndone(states, labels, x, 0));
    } else {
      RunTracked(states, labels, x, n - 1);
      RunOwned(states, labels, n - 1, x);
      assert Enabled(states[n - 1], labels[n - 1]) && states[n - 1 + 1] == Next(states[n - 1], labels[n - 1]);
      StepTraces(states[n - 1], labels[n - 1], x);
      TrackedStep(states, labels, x, n - 1);
    }
  }

  lemma InitTracked(x: SolutionId, has: bool, pending: bool, undone: bool)
    ensures Tracked(Init(), x, has, pending, undone)
  {
  }

  lemma HandsOutMarked(s: State, l: Label, x: SolutionId)
    requires Inv(s) && Enabled(s, l) && RowInv(s, x) && HandsOut(s, l, x)
    ensures BeingMarked(PollerPc(s), x)
  {
    hide Inv, Held, Wants;
    PollThread(s, l.t, l.c);
    MarkingBound(s, x);
    var ids := s.threads[l.t].poll.ids;
    assert ids[..|ids|] == ids;
  }

  /** In every run: a commit hands x out while its row is new, for the first time, if and only if x was
      marked while the transaction was open and the transaction has been undone since. */
  lemma StraysExactly(states: seq<State>, labels: seq<Label>, n: nat, x: SolutionId)
    requires Run(states, labels) && n < |labels| && NeverStrays(states, labels, n, x) && HandsOut(states[n], labels[n], x)
    ensures Strays(states[n], labels[n], x) <==> MarkUndone(states, labels, x, n)
  {
    hide Inv, OwnOk, RowInv, Enabled, Next, HandsOut, NeverStrays, BeingMarked, ToBeMarked, MarkUndone, MarkPending, HasMark;
    RunOwned(states, labels, n, x);
    assert Enabled(states[n], labels[n]);
    RunTracked(states, labels, x, n);
    HandsOutMarked(states[n], labels[n], x);
  }
}
