/** One row of the solutions table while the dispatcher runs: what the poller's open transaction has
    marked, what undoing it would restore, and whether the row has been handed out. */
module ServerRows {
  import opened Options
  import opened ServerModel

  /** x is in q at most once. */
  ghost predicate Once(q: seq<SolutionId>, x: SolutionId) { forall i, j | 0 <= i < j < |q| :: !(q[i] == x && q[j] == x) }

  function PollerPc(s: State): PC { if POLLER in s.threads then s.threads[POLLER] else Poll(PollIdle) }

  /** An extraction is under way. */
  predicate Extracting(pc: PC) { pc.Poll? && (pc.poll.Selected? || pc.poll.Marking? || pc.poll.RollingBack?) }

  /** The extraction under way has updated x. */
  predicate BeingMarked(pc: PC, x: SolutionId) {
    pc.Poll? &&
    match pc.poll
    case Marking(ids, done) => done <= |ids| && x in ids[..done]
    case RollingBack(marked) => x in marked
    case _ => false
  }

  /** The extraction under way has yet to update x. */
  predicate ToBeMarked(pc: PC, x: SolutionId) {
    pc.Poll? &&
    match pc.poll
    case Selected(ids) => x in ids
    case Marking(ids, done) => done <= |ids| && x in ids[done..]
    case _ => false
  }

  ghost predicate SelectedOnce(pc: PC, x: SolutionId) {
    pc.Poll? ==> (pc.poll.Selected? || pc.poll.Marking? ==> Once(pc.poll.ids, x))
  }

  predicate InUndo(s: State, x: SolutionId) { s.undo.Some? && x in s.undo.value }

  // ---- Every row ----

  predicate CellOk(s: State, x: SolutionId) {
    && (x in s.status <==> x in s.compilerOf)
    && (x in s.status ==> s.status[x] <= 2)
    && (InUndo(s, x) ==> x in s.status && s.undo.value[x] <= 2)
  }

  ghost predicate TableOk(s: State) {
    && (forall x :: CellOk(s, x))
    && (PollerPc(s).Poll? && PollerPc(s).poll.Marking? ==> PollerPc(s).poll.done <= |PollerPc(s).poll.ids|)
  }

  lemma CellAt(s: State, x: SolutionId)
    requires TableOk(s)
    ensures CellOk(s, x)
  {
  }

  lemma EffectCell(s: State, e: Effect, x: SolutionId)
    requires CellOk(s, x)
    ensures x in StatusAfter(s, e) <==> x in s.status
    ensures x in s.status ==> StatusAfter(s, e)[x] <= 2
    ensures UndoAfter(s, e).Some? && x in UndoAfter(s, e).value ==> x in s.status && UndoAfter(s, e).value[x] <= 2
  {
  }

  lemma MarkingDecides(s: State, t: Tid, pc: PC, c: Choice)
    requires pc.Poll? && pc.poll.Marking? ==> pc.poll.done <= |pc.poll.ids|
    ensures var pc' := Decide(s, t, pc, c).0;
            pc'.Poll? && pc'.poll.Marking? ==> pc'.poll.done <= |pc'.poll.ids|
  {
  }

  lemma StepTable(s: State, l: Label)
    requires TableOk(s) && Enabled(s, l) && POLLER in s.threads
    ensures TableOk(Next(s, l))
  {
    hide Decide, StatusAfter, UndoAfter, LocAfter, ObjsAfter, ListsAfter, ClientsAfter, Wants, Held, ChoiceFits;
    var s' := Next(s, l);
    forall x ensures CellOk(s', x) {
      CellAt(s, x);
      match l
      case Act(t, c) => EffectCell(s, Decide(s, t, s.threads[t], c).1, x);
      case Submit(sid, k) => CellAt(s, sid);
      case Accept(_, _) =>
      case Acquire(_) =>
    }
    if l.Act? && l.t == POLLER { MarkingDecides(s, l.t, s.threads[l.t], l.c); }
    if l.Acquire? { GotMarking(s, s.threads[l.t]); }
  }

  lemma GotMarking(s: State, pc: PC)
    ensures Got(s, pc).Poll? && Got(s, pc).poll.Marking? ==> Got(s, pc) == pc
  {
  }

  // ---- One row ----

  /** A row that has been handed out is at 1 or 2; one at 1 is handed out, or being marked; and undoing
      makes new again only what nobody was given. */
  ghost predicate RowOk(s: State, x: SolutionId) {
    && (x in s.loc ==> x in s.status && s.status[x] >= 1)
    && (x in s.status && s.status[x] == 1 ==> x in s.loc || BeingMarked(PollerPc(s), x))
    && (InUndo(s, x) ==>
          && x in s.status && s.status[x] >= 1 && s.undo.value[x] <= s.status[x]
          && (s.undo.value[x] == 1 ==> x in s.loc)
          && (s.undo.value[x] == 0 && x in s.loc ==> s.loc[x].Dropped?))
  }

  /** Updated by the extraction under way. If another thread's query has undone that, it is new again. */
  ghost predicate Marked(s: State, x: SolutionId) {
    x in s.status && s.status[x] <= 1 && x !in s.loc && (InUndo(s, x) ==> s.undo.value[x] == 0)
  }

  ghost predicate ExtractOk(s: State, x: SolutionId) {
    var pc := PollerPc(s);
    && SelectedOnce(pc, x)
    && (BeingMarked(pc, x) ==> Marked(s, x))
    && (ToBeMarked(pc, x) ==> x in s.status && s.status[x] == 0)
  }

  ghost predicate RowInv(s: State, x: SolutionId) { TableOk(s) && RowOk(s, x) && ExtractOk(s, x) }

  // ---- Steps that leave the row alone ----

  /** x is not newly handed out, and if nobody had it nobody has it now. */
  ghost predicate LocKept(s: State, s': State, x: SolutionId) {
    && (x in s'.loc <==> x in s.loc)
    && (x in s.loc && s.loc[x].Dropped? ==> s'.loc[x].Dropped?)
  }

  /** The poller is where it was, or not in an extraction before or after. */
  ghost predicate SamePoll(s: State, s': State) {
    PollerPc(s') == PollerPc(s) || (!Extracting(PollerPc(s)) && !Extracting(PollerPc(s')))
  }

  lemma SamePollMarks(s: State, s': State, x: SolutionId)
    requires SamePoll(s, s')
    ensures BeingMarked(PollerPc(s'), x) <==> BeingMarked(PollerPc(s), x)
    ensures ToBeMarked(PollerPc(s'), x) <==> ToBeMarked(PollerPc(s), x)
    ensures SelectedOnce(PollerPc(s), x) ==> SelectedOnce(PollerPc(s'), x)
  {
    hide Once;
  }

  lemma DbUntouched(s: State, s': State, x: SolutionId)
    requires RowInv(s, x) && LocKept(s, s', x) && SamePoll(s, s') && TableOk(s')
    requires s'.status == s.status && s'.undo == s.undo
    ensures RowInv(s', x)
  {
    hide BeingMarked, ToBeMarked, SelectedOnce, TableOk;
    SamePollMarks(s, s', x);
  }

  // ---- Posts ----

  /** A result for row y: outside an extraction, or of a row that has been handed out. */
  lemma PostKeeps(s: State, s': State, y: SolutionId, x: SolutionId)
    requires RowInv(s, x) && LocKept(s, s', x) && SamePoll(s, s') && TableOk(s')
    requires s'.status == (if y in s.status then s.status[y := 2] else s.status) && s'.undo == Overwritten(s, y)
    requires !Extracting(PollerPc(s)) || (x == y ==> x in s.loc)
    ensures RowInv(s', x)
  {
    hide BeingMarked, ToBeMarked, SelectedOnce;
    CellAt(s, x);
    SamePollMarks(s, s', x);
    NotExtracting(s, x);
  }

  lemma NotExtracting(s: State, x: SolutionId)
    ensures !Extracting(PollerPc(s)) ==> !BeingMarked(PollerPc(s), x) && !ToBeMarked(PollerPc(s), x)
  {
  }

  // ---- Undoing ----

  ghost predicate SameMarks(s: State, s': State, x: SolutionId) {
    && (BeingMarked(PollerPc(s'), x) <==> BeingMarked(PollerPc(s), x))
    && (ToBeMarked(PollerPc(s'), x) ==> ToBeMarked(PollerPc(s), x))
    && (SelectedOnce(PollerPc(s), x) ==> SelectedOnce(PollerPc(s'), x))
  }

  /** The open transaction is undone, by whichever thread's query. */
  lemma UndoKeeps(s: State, s': State, x: SolutionId)
    requires RowInv(s, x) && SameMarks(s, s', x) && TableOk(s')
    requires s'.status == (if s.undo.Some? then s.status + s.undo.value else s.status) && s'.undo.None?
    requires x in s'.loc <==> x in s.loc && !NewAgain(s, x)
    ensures RowInv(s', x)
  {
    hide BeingMarked, ToBeMarked, SelectedOnce;
    CellAt(s, x);
  }

  // ---- The poller's own steps ----

  /** What a query of the poller leaves as it is. */
  ghost predicate PollStepTo(s: State, s': State, e: Effect, poll: PollStep) {
    && POLLER in s.threads && PollerPc(s') == Poll(poll) && TableOk(s')
    && s'.status == StatusAfter(s, e) && s'.undo == UndoAfter(s, e) && s'.loc == LocAfter(s, POLLER, e)
  }

  lemma SelectKeeps(s: State, s': State, ids: seq<SolutionId>, x: SolutionId)
    requires RowInv(s, x) && FreshRows(s, ids) && !Extracting(PollerPc(s)) && PollStepTo(s, s', Nothing, Selected(ids))
    ensures RowInv(s', x)
  {
    hide TableOk;
  }

  lemma BeginKeeps(s: State, s': State, ids: seq<SolutionId>, x: SolutionId)
    requires RowInv(s, x) && PollerPc(s) == Poll(Selected(ids)) && PollStepTo(s, s', BeginTx, Marking(ids, 0))
    ensures RowInv(s', x)
  {
    hide TableOk;
    assert ids[..0] == [] && ids[0..] == ids;
  }

  lemma MarkRowKeeps(s: State, s': State, ids: seq<SolutionId>, done: nat, x: SolutionId)
    requires RowInv(s, x) && PollerPc(s) == Poll(Marking(ids, done)) && done < |ids|
    requires PollStepTo(s, s', MarkRow(ids[done]), Marking(ids, done + 1))
    ensures RowInv(s', x)
  {
    CellAt(s, x);
    hide TableOk;
    var y := ids[done];
    assert ids[..done + 1] == ids[..done] + [y] && ids[done..] == [y] + ids[done + 1..];
    if x == y {
      assert x in ids[done..];
      assert x !in ids[done + 1..] by { LaterDiffers(ids, done, x); }
    }
  }

  lemma LaterDiffers(ids: seq<SolutionId>, done: nat, x: SolutionId)
    requires done < |ids| && ids[done] == x && Once(ids, x)
    ensures x !in ids[done + 1..]
  {
    var rest := ids[done + 1..];
    forall i | 0 <= i < |rest| ensures rest[i] != x { assert rest[i] == ids[done + 1 + i]; }
  }

  /** The commit hands x out, unless the row is new although it was updated. */
  lemma CommitKeeps(s: State, s': State, ids: seq<SolutionId>, x: SolutionId)
    requires RowInv(s, x) && PollerPc(s) == Poll(Marking(ids, |ids|)) && PollStepTo(s, s', CommitRows(ids), Batch(ids))
    requires x in ids && x in s.status ==> s.status[x] != 0
    ensures RowInv(s', x)
  {
    hide TableOk;
    assert ids[..|ids|] == ids;
  }

  lemma GiveUpKeeps(s: State, s': State, ids: seq<SolutionId>, undone: bool, x: SolutionId)
    requires RowInv(s, x) && (PollerPc(s) == Poll(Marking(ids, |ids|)) || PollerPc(s) == Poll(RollingBack(ids)))
    requires PollStepTo(s, s', GiveUp(ids, undone), PollIdle)
    ensures RowInv(s', x)
  {
    CellAt(s, x);
    hide TableOk;
    assert ids[..|ids|] == ids;
  }

  lemma StopKeeps(s: State, s': State, x: SolutionId)
    requires RowInv(s, x) && !BeingMarked(PollerPc(s), x) && PollStepTo(s, s', Nothing, PollIdle)
    ensures RowInv(s', x)
  {
    hide TableOk;
  }

  lemma FailKeeps(s: State, s': State, ids: seq<SolutionId>, done: nat, x: SolutionId)
    requires RowInv(s, x) && PollerPc(s) == Poll(Marking(ids, done)) && done <= |ids|
    requires PollStepTo(s, s', Nothing, RollingBack(ids[..done]))
    ensures RowInv(s', x)
  {
    hide TableOk;
  }

  lemma SubmitKeeps(s: State, sid: SolutionId, k: Compiler, x: SolutionId)
    requires RowInv(s, x) && sid !in s.compilerOf && TableOk(Next(s, Submit(sid, k)))
    ensures RowInv(Next(s, Submit(sid, k)), x)
  {
    hide BeingMarked, ToBeMarked, SelectedOnce;
    CellAt(s, sid);
  }
}
