/** A call of solutions_extract_new as a sequence of events on its connection, and what the events make of
    any part of a row: its checking, or its verdict and response. */
module DbTraces {
  import opened Options
  import opened SolutionsDb
  import opened DbHistory

  // ---- Queries as events ----

  function Gap(es: seq<Foreign>): seq<Event> { if es == [] then [] else Gap(es[..|es| - 1]) + [Other(es[|es| - 1])] }

  function AskTrace(env: Env, c: nat, q: Query): seq<Event> { Gap(env.others(c)) + [Own(q, env.out(c))] }

  function UpdatesTrace(env: Env, c: nat, ids: seq<Id>): seq<Event>
    decreases |ids|
  {
    if ids == [] then []
    else AskTrace(env, c, Update(ids[0])) + if env.out(c).Done? then UpdatesTrace(env, c + 1, ids[1..]) else []
  }

  function TransactionTrace(env: Env, c: nat, ids: seq<Id>): seq<Event> {
    var begin := AskTrace(env, c, Begin);
    if !env.out(c).Done? then begin
    else
      var done := Good(env.out, c + 1, |ids|);
      begin + UpdatesTrace(env, c + 1, ids)
      + if done < |ids| then AskTrace(env, c + 2 + done, Rollback) else AskTrace(env, c + 1 + done, Commit)
  }

  // ---- A part of a row ----

  /** A part of row x, and what events write to it. */
  datatype Part<!T> = Part(x: Id, look: Cell -> T, w: Writer<T>)

  /** The writes are those that change the part: an update sets checking, a post all columns. */
  ghost predicate Shows<T(!new)>(p: Part<T>) {
    && (forall c: Cell :: p.look(c.(checking := 1)) == if p.w(Own(Update(p.x), Done)).Some? then p.w(Own(Update(p.x), Done)).value else p.look(c))
    && (forall a, r :: p.w(Other(Post(p.x, a, r))) == Some(p.look(Cell(2, a, r))))
    && (forall e: Event | e != Own(Update(p.x), Done) && !(e.Other? && e.e.Post? && e.e.id == p.x) :: p.w(e).None?)
  }

  function CheckingOf(x: Id): Part<nat> { Part(x, (c: Cell) => c.checking, Checks(x)) }

  function ResultOf(x: Id): Part<(bool, string)> { Part(x, (c: Cell) => (c.accepted, c.response), Results(x)) }

  lemma PartsShow(x: Id)
    ensures Shows(CheckingOf(x)) && Shows(ResultOf(x))
  {
  }

  function ViewBy<T>(db: Db, p: Part<T>): View<T>
    requires p.x in db.cells
  {
    var now := p.look(db.cells[p.x]);
    View(now, if db.undo.None? then None else Some(if p.x in db.undo.value then p.look(db.undo.value[p.x]) else now))
  }

  lemma WriteBy<T>(db: Db, id: Id, c: Cell, p: Part<T>)
    requires p.x in db.cells
    ensures p.x in Write(db, id, c).cells
    ensures ViewBy(Write(db, id, c), p) == if id == p.x then View(p.look(c), ViewBy(db, p).back) else ViewBy(db, p)
  {
  }

  lemma TakeBackBy<T>(db: Db, p: Part<T>)
    requires p.x in db.cells
    ensures p.x in TakeBack(db).cells && ViewBy(TakeBack(db), p) == Back(ViewBy(db, p))
  {
  }

  lemma OursBy<T(!new)>(db: Db, q: Query, o: Outcome, p: Part<T>)
    requires p.x in db.cells && Shows(p)
    ensures p.x in Ours(db, q, o).cells && ViewBy(Ours(db, q, o), p) == StepView(ViewBy(db, p), Own(q, o), p.w)
  {
    hide Write, TakeBack, ViewBy;
    TakeBackBy(db, p);
    if q.Update? && q.id in db.cells { WriteBy(db, q.id, db.cells[q.id].(checking := 1), p); }
    KeepsNow(db, p);
    BeginBy(db, p);
  }

  lemma KeepsNow<T>(db: Db, p: Part<T>)
    requires p.x in db.cells
    ensures ViewBy(db, p).now == p.look(db.cells[p.x])
  {
  }

  lemma BeginBy<T>(db: Db, p: Part<T>)
    requires p.x in db.cells
    ensures ViewBy(Db(db.cells, Some(map[])), p) == View(ViewBy(db, p).now, Some(ViewBy(db, p).now))
    ensures ViewBy(Db(db.cells, None), p) == View(ViewBy(db, p).now, None)
  {
  }

  lemma TheirsBy<T(!new)>(db: Db, e: Foreign, p: Part<T>)
    requires p.x in db.cells && Shows(p)
    ensures p.x in Theirs(db, e).cells && ViewBy(Theirs(db, e), p) == StepView(ViewBy(db, p), Other(e), p.w)
  {
    hide Write, TakeBack;
    match e
    case Submit(id) =>
    case Post(id, accepted, response) => WriteBy(db, id, Cell(2, accepted, response), p);
    case Interrupt => TakeBackBy(db, p);
  }

  lemma {:induction false} TheirsAllBy<T(!new)>(db: Db, es: seq<Foreign>, p: Part<T>)
    requires p.x in db.cells && Shows(p)
    ensures p.x in TheirsAll(db, es).cells && ViewBy(TheirsAll(db, es), p) == Fold(ViewBy(db, p), Gap(es), p.w)
  {
    hide StepView, ViewBy, Theirs, Shows;
    if es != [] {
      var n := |es| - 1;
      TheirsAllBy(db, es[..n], p);
      TheirsBy(TheirsAll(db, es[..n]), es[n], p);
      FoldOne(ViewBy(db, p), Gap(es[..n]), Other(es[n]), p.w);
    }
  }

  lemma {:induction false} TheirsAllOk(db: Db, es: seq<Foreign>)
    requires DbOk(db)
    ensures DbOk(TheirsAll(db, es))
  {
    if es != [] { TheirsAllOk(db, es[..|es| - 1]); }
  }

  lemma AskOk(env: Env, db: Db, c: nat, q: Query)
    requires DbOk(db)
    ensures DbOk(Ask(env, db, c, q))
  {
    TheirsAllOk(db, env.others(c));
  }

  /** db' is what the events make of db, as far as this part of the row goes. */
  ghost predicate Follows<T(!new)>(db: Db, es: seq<Event>, db': Db, p: Part<T>)
    requires p.x in db.cells
  {
    DbOk(db') && p.x in db'.cells && ViewBy(db', p) == Fold(ViewBy(db, p), es, p.w)
  }

  lemma FollowsJoin<T(!new)>(db: Db, a: seq<Event>, mid: Db, b: seq<Event>, db': Db, p: Part<T>)
    requires p.x in db.cells && Follows(db, a, mid, p) && Follows(mid, b, db', p)
    ensures Follows(db, a + b, db', p)
  {
    hide DbOk, ViewBy, Fold;
    FoldAppend(ViewBy(db, p), a, b, p.w);
  }

  lemma AskIsFold<T(!new)>(env: Env, db: Db, c: nat, q: Query, p: Part<T>)
    requires DbOk(db) && p.x in db.cells && Shows(p)
    ensures Follows(db, AskTrace(env, c, q), Ask(env, db, c, q), p)
  {
    hide DbOk, ViewBy, Fold, StepView, Ours, TheirsAll, Shows;
    TheirsAllBy(db, env.others(c), p);
    OursBy(TheirsAll(db, env.others(c)), q, env.out(c), p);
    FoldOne(ViewBy(db, p), Gap(env.others(c)), Own(q, env.out(c)), p.w);
    AskOk(env, db, c, q);
  }

  lemma FollowsNothing<T(!new)>(db: Db, p: Part<T>)
    requires DbOk(db) && p.x in db.cells && Shows(p)
    ensures Follows(db, [], db, p)
  {
  }

  lemma {:induction false} UpdatedIsFold<T(!new)>(env: Env, db: Db, c: nat, ids: seq<Id>, p: Part<T>)
    requires DbOk(db) && p.x in db.cells && Shows(p)
    ensures Follows(db, UpdatesTrace(env, c, ids), Updated(env, db, c, ids), p)
    decreases |ids|
  {
    hide DbOk, ViewBy, Ask, Fold, AskTrace, Shows;
    if ids == [] {
      FollowsNothing(db, p);
    } else {
      AskIsFold(env, db, c, Update(ids[0]), p);
      var db' := Ask(env, db, c, Update(ids[0]));
      if env.out(c).Done? {
        UpdatedIsFold(env, db', c + 1, ids[1..], p);
        FollowsJoin(db, AskTrace(env, c, Update(ids[0])), db', UpdatesTrace(env, c + 1, ids[1..]), Updated(env, db, c, ids), p);
      } else {
        var es := AskTrace(env, c, Update(ids[0]));
        assert es + [] == es;
      }
    }
  }

  lemma TransactionIsFold<T(!new)>(env: Env, db: Db, c: nat, ids: seq<Id>, p: Part<T>)
    requires DbOk(db) && p.x in db.cells && Shows(p)
    ensures Follows(db, TransactionTrace(env, c, ids), Transaction(env, db, c, ids), p)
  {
    hide DbOk, ViewBy, Ask, Fold, AskTrace, Shows, Updated, UpdatesTrace, Good;
    var begun, es := Ask(env, db, c, Begin), AskTrace(env, c, Begin);
    AskIsFold(env, db, c, Begin, p);
    if env.out(c).Done? {
      var done := Good(env.out, c + 1, |ids|);
      var db', es' := Updated(env, begun, c + 1, ids), es + UpdatesTrace(env, c + 1, ids);
      UpdatedIsFold(env, begun, c + 1, ids, p);
      FollowsJoin(db, es, begun, UpdatesTrace(env, c + 1, ids), db', p);
      if done < |ids| {
        AskIsFold(env, db', c + 2 + done, Rollback, p);
        FollowsJoin(db, es', db', AskTrace(env, c + 2 + done, Rollback), Ask(env, db', c + 2 + done, Rollback), p);
      } else {
        AskIsFold(env, db', c + 1 + done, Commit, p);
        FollowsJoin(db, es', db', AskTrace(env, c + 1 + done, Commit), Ask(env, db', c + 1 + done, Commit), p);
      }
    }
  }

  /** A row comes into being by being submitted, new, not accepted and without a response, and no undoing
      touches it. */
  lemma {:induction false} RowsAreBornNew(db: Db, es: seq<Foreign>, x: Id)
    requires x !in db.cells && DbOk(db) && x in TheirsAll(db, es).cells
    requires forall e | e in es :: !(e.Post? && e.id == x)
    ensures Submit(x) in es && TheirsAll(db, es).cells[x] == Cell(0, false, "")
  {
    var n := |es| - 1;
    var init := es[..n];
    TheirsAllOk(db, init);
    if x in TheirsAll(db, init).cells {
      RowsAreBornNew(db, init, x);
      NewStaysNew(TheirsAll(db, init), es[n], x);
    } else {
      BornBySubmit(TheirsAll(db, init), es[n], x);
    }
  }

  lemma BornBySubmit(db: Db, e: Foreign, x: Id)
    requires DbOk(db) && x !in db.cells && x in Theirs(db, e).cells
    ensures e == Submit(x) && Theirs(db, e).cells[x] == Cell(0, false, "")
  {
  }

  lemma NewStaysNew(db: Db, e: Foreign, x: Id)
    requires DbOk(db) && x in db.cells && db.cells[x] == Cell(0, false, "") && !(e.Post? && e.id == x)
    ensures x in Theirs(db, e).cells && Theirs(db, e).cells[x] == Cell(0, false, "")
  {
  }
}
