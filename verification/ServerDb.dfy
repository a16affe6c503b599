/** The dispatcher's database steps are the queries of SolutionsDb: every run of the dispatcher is a
    history of one connection, and the laws of DbHistory hold of every row in it. */
module ServerDb {
  import opened Options
  import opened ServerModel
  import opened ServerLocks
  import opened ServerRows
  import opened ServerConservation
  import opened ServerLifecycle
  import SolutionsDb
  import DbHistory

  /** The query the poller asks next. */
  function QueryOf(poll: PollStep): Option<SolutionsDb.Query> {
    match poll
    case PollHold => Some(SolutionsDb.Select)
    case Selected(ids) => if ids == [] then None else Some(SolutionsDb.Begin)
    case Marking(ids, done) => Some(if done < |ids| then SolutionsDb.Update(ids[done]) else SolutionsDb.Commit)
    case RollingBack(_) => Some(SolutionsDb.Rollback)
    case _ => None
  }

  function OutcomeOf(c: Choice): SolutionsDb.Outcome {
    match c
    case Undone => SolutionsDb.Undone
    case Fail => SolutionsDb.Failed
    case _ => SolutionsDb.Done
  }

  /** solution_post_result for row x, by whichever thread. */
  function PostOf(x: SolutionId, accepted: bool, response: string, c: Choice): seq<DbHistory.Event> {
    match c
    case Undone => [DbHistory.Other(SolutionsDb.Interrupt)]
    case Fail => []
    case _ => [DbHistory.Other(SolutionsDb.Post(x, accepted, response))]
  }

  /** What a step asks of the database; the text of a reported result is left out. */
  function EventsOf(s: State, l: Label): seq<DbHistory.Event> {
    match l
    case Submit(sid, _) => [DbHistory.Other(SolutionsDb.Submit(sid))]
    case Act(t, c) =>
      if t !in s.threads then []
      else
        (match s.threads[t]
         case Poll(poll) => if QueryOf(poll).Some? then [DbHistory.Own(QueryOf(poll).value, OutcomeOf(c))] else []
         case Running(step) => if step.PostHold? && step.code <= 7 then PostOf(step.sid, step.code == 0, "", c) else []
         case Push(_, x, _, _) => if FailsPush(s, s.threads[t], x) then PostOf(x, false, "FL", c) else []
         case _ => [])
    case _ => []
  }

  /** Row x as SolutionsDb sees it. */
  function RowView(s: State, x: SolutionId): SolutionsDb.View<nat>
    requires x in s.status
  {
    SolutionsDb.View(s.status[x], if s.undo.None? then None else Some(Back(s, x)))
  }

  function ViewAfter(s: State, e: Effect, x: SolutionId): SolutionsDb.View<nat> {
    var status, undo := StatusAfter(s, e), UndoAfter(s, e);
    if x !in status then SolutionsDb.View(0, None)
    else SolutionsDb.View(status[x], if undo.None? then None else Some(if x in undo.value then undo.value[x] else status[x]))
  }

  lemma FoldSingle(v: SolutionsDb.View<nat>, e: DbHistory.Event, x: SolutionId)
    ensures DbHistory.Fold(v, [e], DbHistory.Checks(x)) == DbHistory.StepView(v, e, DbHistory.Checks(x))
  {
    assert [e][..0] == [];
  }

  lemma PollIsQuery(s: State, poll: PollStep, c: Choice, x: SolutionId)
    requires CellOk(s, x) && x in s.status && ChoiceFits(s, Poll(poll), c) && !poll.PollWant?
    ensures var e := DecidePoll(s, poll, c).1;
            ViewAfter(s, e, x) == if QueryOf(poll).Some? then DbHistory.StepView(RowView(s, x), DbHistory.Own(QueryOf(poll).value, OutcomeOf(c)), DbHistory.Checks(x)) else RowView(s, x)
  {
    hide FreshRows;
  }

  lemma PostIsQuery(s: State, e: Effect, y: SolutionId, accepted: bool, response: string, c: Choice, x: SolutionId)
    requires CellOk(s, x) && x in s.status && (c.Go? || c.Fail? || c.Undone?)
    requires || e == MarkFailure(y, c)
             || e == if c.Fail? then Nothing else if c.Go? then Mark(y) else FailedPost
    ensures ViewAfter(s, e, x) == DbHistory.Fold(RowView(s, x), PostOf(y, accepted, response, c), DbHistory.Checks(x))
  {
    hide DbHistory.Fold;
    if !c.Fail? { FoldSingle(RowView(s, x), PostOf(y, accepted, response, c)[0], x); } else { FoldNone(RowView(s, x), x); }
  }

  lemma FoldNone(v: SolutionsDb.View<nat>, x: SolutionId)
    ensures DbHistory.Fold(v, [], DbHistory.Checks(x)) == v
  {
  }

  lemma Unasked(s: State, e: Effect, x: SolutionId)
    requires x in s.status && !e.Mark? && !e.FailedPost? && !e.MarkFailure? && !OnDb(e)
    ensures ViewAfter(s, e, x) == RowView(s, x)
  {
  }

  lemma RunningAsks(s: State, t: Tid, step: ClientStep, c: Choice)
    requires ChoiceFits(s, Running(step), c)
    ensures var e := DecideRunning(s, t, step, c).1;
            && !e.MarkFailure? && !OnDb(e)
            && (step.PostHold? && step.code <= 7 ==>
                  (c.Go? || c.Fail? || c.Undone?) && e == if c.Fail? then Nothing else if c.Go? then Mark(step.sid) else FailedPost)
            && (!(step.PostHold? && step.code <= 7) ==> !e.Mark? && !e.FailedPost?)
  {
  }

  lemma PushAsks(s: State, t: Tid, c: Choice)
    requires t in s.threads && s.threads[t].Push? && Wants(t, s.threads[t]).None?
    ensures var e, x := Decide(s, t, s.threads[t], c).1, s.threads[t].x;
            && !e.Mark? && !e.FailedPost? && !OnDb(e)
            && (FailsPush(s, s.threads[t], x) ==> e == MarkFailure(x, c))
            && (!FailsPush(s, s.threads[t], x) ==> !e.MarkFailure?)
  {
  }

  lemma OtherAsks(s: State, t: Tid, c: Choice)
    requires t in s.threads && (s.threads[t].Entering? || s.threads[t].Removing?)
    ensures var e := Decide(s, t, s.threads[t], c).1; !e.Mark? && !e.FailedPost? && !e.MarkFailure? && !OnDb(e)
  {
  }

  lemma ActIsQuery(s: State, t: Tid, c: Choice, x: SolutionId)
    requires CellOk(s, x) && x in s.status && Enabled(s, Act(t, c))
    ensures ViewAfter(s, Decide(s, t, s.threads[t], c).1, x) == DbHistory.Fold(RowView(s, x), EventsOf(s, Act(t, c)), DbHistory.Checks(x))
  {
    hide CellOk, ViewAfter, RowView, DbHistory.Fold, FailsPush, PostOf, QueryOf, OutcomeOf, DecidePoll, DecideRunning, DecidePush, DecideRemoving, StepWants, StageWants, Held;
    var e := Decide(s, t, s.threads[t], c).1;
    FoldNone(RowView(s, x), x);
    match s.threads[t]
    case Poll(poll) =>
      PollIsQuery(s, poll, c, x);
      if QueryOf(poll).Some? { FoldSingle(RowView(s, x), DbHistory.Own(QueryOf(poll).value, OutcomeOf(c)), x); }
    case Running(step) =>
      RunningAsks(s, t, step, c);
      if step.PostHold? && step.code <= 7 { PostIsQuery(s, e, step.sid, step.code == 0, "", c, x); } else { Unasked(s, e, x); }
    case Push(_, y, _, _) =>
      PushAsks(s, t, c);
      if FailsPush(s, s.threads[t], y) { PostIsQuery(s, e, y, false, "FL", c, x); } else { Unasked(s, e, x); }
    case _ =>
      OtherAsks(s, t, c);
      Unasked(s, e, x);
  }

  /** Every step makes of every row what its queries make of it. */
  lemma StepIsQuery(s: State, l: Label, x: SolutionId)
    requires TableOk(s) && Enabled(s, l) && x in s.status
    ensures x in Next(s, l).status && RowView(Next(s, l), x) == DbHistory.Fold(RowView(s, x), EventsOf(s, l), DbHistory.Checks(x))
  {
    hide TableOk, DbHistory.Fold, Decide, EventsOf, StatusAfter, UndoAfter, LocAfter, ObjsAfter, ListsAfter, ClientsAfter, Wants, Held, ChoiceFits;
    CellAt(s, x);
    FoldNone(RowView(s, x), x);
    NoQuery(s, l);
    match l
    case Act(t, c) =>
      EffectCell(s, Decide(s, t, s.threads[t], c).1, x);
      ActIsQuery(s, t, c, x);
    case Submit(sid, k) => FoldSingle(RowView(s, x), DbHistory.Other(SolutionsDb.Submit(sid)), x);
    case Accept(_, _) =>
    case Acquire(_) =>
  }

  lemma NoQuery(s: State, l: Label)
    ensures l.Accept? || l.Acquire? ==> EventsOf(s, l) == []
    ensures l.Submit? ==> EventsOf(s, l) == [DbHistory.Other(SolutionsDb.Submit(l.sid))]
  {
  }

  // ---- Runs ----

  /** All that a run asks of the database between states i and n. */
  ghost function QueriesOf(states: seq<State>, labels: seq<Label>, i: nat, n: nat): seq<DbHistory.Event>
    requires i <= n <= |labels| && |states| == |labels| + 1
  {
    if i == n then [] else QueriesOf(states, labels, i, n - 1) + EventsOf(states[n - 1], labels[n - 1])
  }

  lemma {:induction false} RunIsHistory(states: seq<State>, labels: seq<Label>, i: nat, n: nat, x: SolutionId)
    requires Run(states, labels) && i <= n <= |labels| && x in states[i].status
    ensures x in states[n].status && RowView(states[n], x) == DbHistory.Fold(RowView(states[i], x), QueriesOf(states, labels, i, n), DbHistory.Checks(x))
    decreases n
  {
    hide Inv, TableOk, Enabled, Next, EventsOf, RowView, DbHistory.Fold;
    if i == n {
      FoldNone(RowView(states[i], x), x);
    } else {
      var s, l := states[n - 1], labels[n - 1];
      RunIsHistory(states, labels, i, n - 1, x);
      RunTable(states, labels, n - 1);
      assert Enabled(s, l) && states[n - 1 + 1] == Next(s, l);
      StepIsQuery(s, l, x);
      DbHistory.FoldAppend(RowView(states[i], x), QueriesOf(states, labels, i, n - 1), EventsOf(s, l), DbHistory.Checks(x));
    }
  }

  /** In every state of every run, for every row: its checking is what the last write to it that is not
      taken back wrote, or what it was. */
  lemma RowExactly(states: seq<State>, labels: seq<Label>, i: nat, n: nat, x: SolutionId)
    requires Run(states, labels) && i <= n <= |labels| && x in states[i].status
    ensures x in states[n].status
    ensures DbHistory.Gives(RowView(states[i], x), QueriesOf(states, labels, i, n), DbHistory.Checks(x), states[n].status[x])
  {
    hide Enabled, Next, QueriesOf, DbHistory.Fold, DbHistory.Gives;
    RunIsHistory(states, labels, i, n, x);
    DbHistory.AreWriters(x);
    DbHistory.ValueExactly(RowView(states[i], x), QueriesOf(states, labels, i, n), DbHistory.Checks(x));
  }
}
