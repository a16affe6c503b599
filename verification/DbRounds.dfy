/** The life of a row over any number of polls, with failures, submissions and queries of other threads
    at every point: when what has been handed out can be handed out again, and what a failed poll
    leaves marked for good. */
module DbRounds {
  import opened Options
  import opened SolutionsDb
  import opened DbFailures
  import opened DbHistory
  import opened DbTraces

  /** One call of solutions_extract_new, whose queries are numbered from c on. */
  datatype Round = Round(env: Env, c: nat, ids: seq<Id>, fieldsOk: bool)

  function After(db: Db, r: Round): Db { Extraction(r.env, db, r.c, r.ids, r.fieldsOk) }

  function Handed(r: Round): seq<Id> { if Succeeds(r.env, r.c, r.ids, r.fieldsOk) then r.ids else [] }

  ghost predicate Legal(db: Db, r: Round) {
    r.env.out(r.c).Done? ==> Selects(Selected(db, r).cells, r.ids)
  }

  function Selected(db: Db, r: Round): Db { Ask(r.env, db, r.c, Select) }

  /** The connection may start with a transaction open. */
  ghost predicate IsHistory(dbs: seq<Db>, rounds: seq<Round>) {
    && |dbs| == |rounds| + 1 && DbOk(dbs[0])
    && forall i {:trigger rounds[i]} | 0 <= i < |rounds| :: Legal(dbs[i], rounds[i]) && dbs[i + 1] == After(dbs[i], rounds[i])
  }

  // ---- Polls as events ----

  /** What happens on the connection during a poll. */
  function Trace(r: Round): seq<Event> {
    AskTrace(r.env, r.c, Select)
    + if !r.env.out(r.c).Done? || !r.fieldsOk || r.ids == [] then [] else TransactionTrace(r.env, r.c + 1, r.ids)
  }

  function TraceOf(rounds: seq<Round>): seq<Event> {
    if rounds == [] then [] else TraceOf(rounds[..|rounds| - 1]) + Trace(rounds[|rounds| - 1])
  }

  /** The same of the checking of row x. */
  ghost predicate RowFollows(db: Db, es: seq<Event>, db': Db, x: Id)
    requires x in db.cells
  {
    DbOk(db') && x in db'.cells && ViewOf(db', x) == Fold(ViewOf(db, x), es, Checks(x))
  }

  lemma ViewOfIs(db: Db, x: Id)
    requires x in db.cells
    ensures ViewBy(db, CheckingOf(x)) == ViewOf(db, x)
  {
  }

  lemma FollowsRow(db: Db, es: seq<Event>, db': Db, x: Id)
    requires x in db.cells && Follows(db, es, db', CheckingOf(x))
    ensures RowFollows(db, es, db', x)
  {
    hide DbOk, ViewBy, ViewOf, Fold;
    ViewOfIs(db, x);
    ViewOfIs(db', x);
  }

  lemma RoundIsFold<T(!new)>(db: Db, r: Round, p: Part<T>)
    requires DbOk(db) && p.x in db.cells && Shows(p)
    ensures Follows(db, Trace(r), After(db, r), p)
  {
    hide DbOk, ViewBy, Ask, Fold, AskTrace, Transaction, TransactionTrace, Shows;
    AskIsFold(r.env, db, r.c, Select, p);
    var selected, es := Selected(db, r), AskTrace(r.env, r.c, Select);
    if !r.env.out(r.c).Done? || !r.fieldsOk || r.ids == [] {
      assert es + [] == es;
    } else {
      TransactionIsFold(r.env, selected, r.c + 1, r.ids, p);
      FollowsJoin(db, es, selected, TransactionTrace(r.env, r.c + 1, r.ids), After(db, r), p);
    }
  }

  /** Every query of every poll, with what other threads ask in between, makes of a part of a row what the
      fold over the events makes of it, so the exact laws of DbHistory hold of any sequence of polls. */
  lemma {:induction false} HistoryIsFold<T(!new)>(dbs: seq<Db>, rounds: seq<Round>, i: nat, j: nat, p: Part<T>)
    requires IsHistory(dbs, rounds) && i <= j <= |rounds| && p.x in dbs[i].cells && Shows(p)
    ensures Follows(dbs[i], TraceOf(rounds[i..j]), dbs[j], p)
    decreases j
  {
    hide DbOk, After, Legal, Trace, Follows, Shows;
    HistoryOk(dbs, rounds, i);
    if i == j {
      FollowsNothing(dbs[i], p);
    } else {
      HistoryIsFold(dbs, rounds, i, j - 1, p);
      FollowsKnows(dbs[i], TraceOf(rounds[i..j - 1]), dbs[j - 1], p);
      assert dbs[j - 1 + 1] == After(dbs[j - 1], rounds[j - 1]);
      RoundIsFold(dbs[j - 1], rounds[j - 1], p);
      assert rounds[i..j][..j - 1 - i] == rounds[i..j - 1];
      FollowsJoin(dbs[i], TraceOf(rounds[i..j - 1]), dbs[j - 1], Trace(rounds[j - 1]), dbs[j], p);
    }
  }

  lemma FollowsKnows<T(!new)>(db: Db, es: seq<Event>, db': Db, p: Part<T>)
    requires p.x in db.cells && Follows(db, es, db', p)
    ensures DbOk(db') && p.x in db'.cells
  {
  }

  lemma HistoryRow(dbs: seq<Db>, rounds: seq<Round>, i: nat, j: nat, x: Id)
    requires IsHistory(dbs, rounds) && i <= j <= |rounds| && x in dbs[i].cells
    ensures RowFollows(dbs[i], TraceOf(rounds[i..j]), dbs[j], x)
  {
    hide DbOk, After, Legal, Trace, Follows, Shows, RowFollows;
    PartsShow(x);
    HistoryIsFold(dbs, rounds, i, j, CheckingOf(x));
    FollowsRow(dbs[i], TraceOf(rounds[i..j]), dbs[j], x);
  }

  /** The exact value of a row after any sequence of polls, whatever fails and whoever asks in between. Its
      checking is what the last write that is not taken back wrote, or what it was at the start; its
      verdict and response are those of the last post that is not taken back, or what they were. */
  lemma HistoryExactly(dbs: seq<Db>, rounds: seq<Round>, i: nat, j: nat, x: Id)
    requires IsHistory(dbs, rounds) && i <= j <= |rounds| && x in dbs[i].cells
    ensures x in dbs[j].cells
    ensures Gives(ViewBy(dbs[i], CheckingOf(x)), TraceOf(rounds[i..j]), Checks(x), dbs[j].cells[x].checking)
    ensures Gives(ViewBy(dbs[i], ResultOf(x)), TraceOf(rounds[i..j]), Results(x), (dbs[j].cells[x].accepted, dbs[j].cells[x].response))
  {
    hide DbOk, After, Legal, TraceOf, Gives, Fold, Shows, IsWriter;
    PartsShow(x);
    AreWriters(x);
    HistoryIsFold(dbs, rounds, i, j, CheckingOf(x));
    HistoryIsFold(dbs, rounds, i, j, ResultOf(x));
    ValueExactly(ViewBy(dbs[i], CheckingOf(x)), TraceOf(rounds[i..j]), Checks(x));
    ValueExactly(ViewBy(dbs[i], ResultOf(x)), TraceOf(rounds[i..j]), Results(x));
  }

  // ---- The connection stays in order ----

  lemma {:induction false} UpdatedOk(env: Env, db: Db, c: nat, ids: seq<Id>)
    requires DbOk(db)
    ensures DbOk(Updated(env, db, c, ids))
    decreases |ids|
  {
    hide Ask, DbOk;
    if ids != [] {
      AskOk(env, db, c, Update(ids[0]));
      if env.out(c).Done? { UpdatedOk(env, Ask(env, db, c, Update(ids[0])), c + 1, ids[1..]); }
    }
  }

  lemma RoundOk(db: Db, r: Round)
    requires DbOk(db)
    ensures DbOk(After(db, r))
  {
    hide Ask, DbOk, Updated;
    AskOk(r.env, db, r.c, Select);
    var selected := Selected(db, r);
    AskOk(r.env, selected, r.c + 1, Begin);
    var begun := Ask(r.env, selected, r.c + 1, Begin);
    UpdatedOk(r.env, begun, r.c + 2, r.ids);
    var done := Good(r.env.out, r.c + 2, |r.ids|);
    AskOk(r.env, Updated(r.env, begun, r.c + 2, r.ids), r.c + 3 + done, Rollback);
    AskOk(r.env, Updated(r.env, begun, r.c + 2, r.ids), r.c + 2 + done, Commit);
  }

  lemma {:induction false} HistoryOk(dbs: seq<Db>, rounds: seq<Round>, i: nat)
    requires IsHistory(dbs, rounds) && i <= |rounds|
    ensures DbOk(dbs[i])
  {
    hide DbOk, After, Legal;
    if i > 0 {
      HistoryOk(dbs, rounds, i - 1);
      assert dbs[i - 1 + 1] == After(dbs[i - 1], rounds[i - 1]);
      RoundOk(dbs[i - 1], rounds[i - 1]);
    }
  }

  // ---- A row that no undoing makes new again ----

  lemma AskRow(env: Env, db: Db, c: nat, q: Query, x: Id)
    requires DbOk(db) && x in db.cells
    ensures RowFollows(db, AskTrace(env, c, q), Ask(env, db, c, q), x)
  {
    hide DbOk, Ask, AskTrace, RowFollows, Follows, Shows;
    PartsShow(x);
    AskIsFold(env, db, c, q, CheckingOf(x));
    FollowsRow(db, AskTrace(env, c, q), Ask(env, db, c, q), x);
  }

  predicate Firm(v: View<nat>) { v.now >= 1 && (v.back.Some? ==> v.back.value >= 1) }

  predicate Settled(db: Db, x: Id) { x in db.cells && Firm(ViewOf(db, x)) }

  lemma {:induction false} FirmStays(v: View<nat>, es: seq<Event>, x: Id)
    requires Firm(v)
    ensures Firm(Fold(v, es, Checks(x)))
  {
    if es != [] { FirmStays(v, es[..|es| - 1], x); }
  }

  lemma SettledStays(dbs: seq<Db>, rounds: seq<Round>, i: nat, j: nat, x: Id)
    requires IsHistory(dbs, rounds) && i <= j <= |rounds| && Settled(dbs[i], x)
    ensures Settled(dbs[j], x)
  {
    hide DbOk, Legal, After, Firm, ViewOf;
    HistoryRow(dbs, rounds, i, j, x);
    FirmStays(ViewOf(dbs[i], x), TraceOf(rounds[i..j]), x);
  }

  /** A settled row is not selected, and so not handed out. */
  lemma SettledNotHanded(db: Db, r: Round, x: Id)
    requires DbOk(db) && Legal(db, r) && Settled(db, x)
    ensures x !in Handed(r)
  {
    hide Ask, DbOk;
    SettledAsk(r.env, db, r.c, Select, x);
  }

  // ---- What a poll that succeeds hands out ----

  /** Some write to x since the select is not taken back. */
  ghost predicate WriteStands(db: Db, r: Round, x: Id)
    requires x in Selected(db, r).cells
  {
    var es := TransactionTrace(r.env, r.c + 1, r.ids);
    exists p: nat :: p < |es| && Stands(ViewOf(Selected(db, r), x), es, p, Checks(x))
  }

  lemma CommitsLast(env: Env, c: nat, ids: seq<Id>)
    requires Committed(env.out, c, |ids|)
    ensures var es := TransactionTrace(env, c, ids); es != [] && Commits(es[|es| - 1])
  {
    hide Gap, UpdatesTrace, Good, Committed;
    CommittedMeans(env.out, c, |ids|);
  }

  /** After a write that stands, or else the value at the start. */
  lemma FirmExactly(v: View<nat>, es: seq<Event>, x: Id)
    requires v.now == 0 && (v.back.Some? ==> v.back.value == 0) && es != [] && Commits(es[|es| - 1])
    ensures Firm(Fold(v, es, Checks(x))) <==> exists p: nat :: p < |es| && Stands(v, es, p, Checks(x))
    ensures Fold(v, es, Checks(x)).back.None? && (Fold(v, es, Checks(x)).now >= 1 <==> Firm(Fold(v, es, Checks(x))))
  {
    hide Stands, StepView, Commits;
    AreWriters(x);
    StepCases(Fold(v, es[..|es| - 1], Checks(x)), es[|es| - 1], Checks(x));
    ValueExactly(v, es, Checks(x));
  }

  lemma NewRow(db: Db, x: Id)
    requires DbOk(db) && x in db.cells && db.cells[x].checking == 0
    ensures var v := ViewOf(db, x); v.now == 0 && (v.back.Some? ==> v.back.value == 0)
  {
  }

  /** A row that is handed out is settled if and only if some write to it since the select is not
      taken back; otherwise the poll leaves it new. */
  lemma HandedSettles(db: Db, r: Round, x: Id)
    requires DbOk(db) && Legal(db, r) && x in Handed(r)
    ensures x in Selected(db, r).cells && x in After(db, r).cells
    ensures Settled(After(db, r), x) <==> WriteStands(db, r, x)
    ensures After(db, r).cells[x].checking == 0 <==> !WriteStands(db, r, x)
  {
    hide Ask, DbOk, Transaction, TransactionTrace, Fold, Stands, Committed;
    AskOk(r.env, db, r.c, Select);
    var selected, es := Selected(db, r), TransactionTrace(r.env, r.c + 1, r.ids);
    NewRow(selected, x);
    PartsShow(x);
    TransactionIsFold(r.env, selected, r.c + 1, r.ids, CheckingOf(x));
    FollowsRow(selected, es, After(db, r), x);
    CommitsLast(r.env, r.c + 1, r.ids);
    FirmExactly(ViewOf(selected, x), es, x);
  }

  /** Over any history of polls, with any failures: a row that is handed out while a write to it stands
      is never handed out again. */
  lemma HandedOutOnce(dbs: seq<Db>, rounds: seq<Round>, i: nat, j: nat, x: Id)
    requires IsHistory(dbs, rounds) && i < j < |rounds| && x in Handed(rounds[i])
    ensures x in Selected(dbs[i], rounds[i]).cells
    ensures WriteStands(dbs[i], rounds[i], x) ==> x !in Handed(rounds[j])
  {
    hide DbOk, After, Legal, Settled, Handed, WriteStands, Selected;
    HistoryOk(dbs, rounds, i);
    assert Legal(dbs[i], rounds[i]) && dbs[i + 1] == After(dbs[i], rounds[i]);
    HandedSettles(dbs[i], rounds[i], x);
    if WriteStands(dbs[i], rounds[i], x) {
      SettledStays(dbs, rounds, i + 1, j, x);
      HistoryOk(dbs, rounds, j);
      assert Legal(dbs[j], rounds[j]);
      SettledNotHanded(dbs[j], rounds[j], x);
    }
  }

  /** The next poll that succeeds hands the row out again exactly if no write to it stands, unless a
      result is posted for it first. */
  lemma HandedAgainExactly(dbs: seq<Db>, rounds: seq<Round>, i: nat, x: Id)
    requires IsHistory(dbs, rounds) && i + 1 < |rounds| && x in Handed(rounds[i])
    requires var r := rounds[i + 1]; Succeeds(r.env, r.c, r.ids, r.fieldsOk) && !PostsTo(r.env.others(r.c), x)
    ensures x in Selected(dbs[i], rounds[i]).cells
    ensures x in Handed(rounds[i + 1]) <==> !WriteStands(dbs[i], rounds[i], x)
  {
    hide DbOk, After, Legal, Settled, WriteStands, Selected, Committed;
    HistoryOk(dbs, rounds, i);
    assert Legal(dbs[i], rounds[i]) && dbs[i + 1] == After(dbs[i], rounds[i]);
    HandedSettles(dbs[i], rounds[i], x);
    HandedOutOnce(dbs, rounds, i, i + 1, x);
    HistoryOk(dbs, rounds, i + 1);
    assert Legal(dbs[i + 1], rounds[i + 1]);
    if !WriteStands(dbs[i], rounds[i], x) { NewIsSelected(dbs[i + 1], rounds[i + 1], x); }
  }

  lemma NewIsSelected(db: Db, r: Round, x: Id)
    requires DbOk(db) && Legal(db, r) && x in db.cells && db.cells[x].checking == 0
    requires r.env.out(r.c).Done? && !PostsTo(r.env.others(r.c), x)
    ensures x in r.ids
  {
    hide Ask, DbOk, TheirsView, PostsTo;
    NewRow(db, x);
    AskIsView(r.env, db, r.c, Select, x);
    NotPostedView(ViewOf(db, x), r.env.others(r.c), x);
  }

  // ---- In terms of the queries ----

  lemma {:induction false} NotPostedView(v: View<nat>, es: seq<Foreign>, x: Id)
    requires !PostsTo(es, x)
    ensures TheirsView(v, es, x) == if Calm(es) then v else Back(v)
  {
    if es != [] {
      var init, last := es[..|es| - 1], es[|es| - 1];
      assert es == init + [last];
      PostsToAppend(init, last, x);
      NotPostedView(v, init, x);
    }
  }

  /** A query of a call in which nothing is posted for x. */
  lemma AskNotPosted(env: Env, db: Db, c: nat, q: Query, x: Id)
    requires DbOk(db) && x in db.cells && !PostsTo(env.others(c), x)
    ensures DbOk(Ask(env, db, c, q)) && x in Ask(env, db, c, q).cells
    ensures var v := ViewOf(db, x);
            ViewOf(Ask(env, db, c, q), x) == OursView(if Calm(env.others(c)) then v else Back(v), x, q, env.out(c))
  {
    hide Ask, DbOk, ViewOf, OursView, PostsTo;
    AskIsView(env, db, c, q, x);
    NotPostedView(ViewOf(db, x), env.others(c), x);
  }

  /** The row after updates that all succeed, of which one or none is for it; kth counts them. */
  function Seen(env: Env, v: View<nat>, c: nat, n: nat, k: Option<nat>): View<nat>
    decreases n
  {
    if n == 0 then v
    else
      var w := if Calm(env.others(c)) then v else Back(v);
      Seen(env, if k == Some(0) then View(1, w.back) else w, c + 1, n - 1,
           if k.Some? && k.value > 0 then Some(k.value - 1) else None)
  }

  lemma {:induction false} UpdatedIsSeen(env: Env, db: Db, c: nat, ids: seq<Id>, k: Option<nat>, x: Id)
    requires DbOk(db) && x in db.cells && Good(env.out, c, |ids|) == |ids| && NotPosted(env, x, c, c + |ids| - 1)
    requires k.Some? ==> k.value < |ids|
    requires forall i | 0 <= i < |ids| :: ids[i] == x <==> k == Some(i)
    ensures var db' := Updated(env, db, c, ids);
            DbOk(db') && x in db'.cells && ViewOf(db', x) == Seen(env, ViewOf(db, x), c, |ids|, k)
    decreases |ids|
  {
    hide Ask, DbOk, ViewOf, PostsTo, Calm;
    if ids != [] {
      assert ids[0] == x <==> k == Some(0);
      AskNotPosted(env, db, c, Update(ids[0]), x);
      var k' := if k.Some? && k.value > 0 then Some(k.value - 1) else None;
      forall i | 0 <= i < |ids| - 1 ensures ids[1..][i] == x <==> k' == Some(i) { assert ids[1..][i] == ids[i + 1]; }
      UpdatedIsSeen(env, Ask(env, db, c, Update(ids[0])), c + 1, ids[1..], k', x);
    }
  }

  lemma UndisturbedFirst(env: Env, lo: nat, hi: int)
    requires lo <= hi
    ensures Undisturbed(env, lo, hi) <==> Calm(env.others(lo)) && Undisturbed(env, lo + 1, hi)
  {
    hide Calm;
  }

  lemma NothingDisturbed(env: Env, lo: nat, hi: int)
    requires hi < lo
    ensures Undisturbed(env, lo, hi)
  {
  }

  /** With no transaction open nothing is taken back. */
  lemma {:induction false} SeenOutside(env: Env, v: View<nat>, c: nat, n: nat, k: Option<nat>)
    requires v.back.None? && (k.Some? ==> k.value < n)
    ensures Seen(env, v, c, n, k) == View(if k.Some? then 1 else v.now, None)
    decreases n
  {
    if n > 0 {
      SeenOutside(env, if k == Some(0) then View(1, None) else v, c + 1, n - 1,
                  if k.Some? && k.value > 0 then Some(k.value - 1) else None);
    }
  }

  lemma {:induction false} SeenAfter(env: Env, v: View<nat>, c: nat, n: nat)
    requires v.back.Some?
    ensures Seen(env, v, c, n, None) == if Undisturbed(env, c, c + n - 1) then v else Back(v)
    decreases n
  {
    hide Calm, Undisturbed;
    if n == 0 {
      NothingDisturbed(env, c, c - 1);
    } else {
      UndisturbedFirst(env, c, c + n - 1);
      if Calm(env.others(c)) { SeenAfter(env, v, c + 1, n - 1); } else { SeenOutside(env, Back(v), c + 1, n - 1, None); }
    }
  }

  /** An update inside a transaction is taken back exactly if the first undoing comes after it. */
  lemma {:induction false} SeenInside(env: Env, v: View<nat>, c: nat, n: nat, k: nat)
    requires v.back.Some? && k < n
    ensures Seen(env, v, c, n, Some(k)) ==
            if !Undisturbed(env, c, c + k) then View(1, None)
            else if Undisturbed(env, c + k + 1, c + n - 1) then View(1, v.back)
            else View(v.back.value, None)
    decreases n
  {
    hide Calm, Undisturbed;
    UndisturbedFirst(env, c, c + k);
    if k == 0 {
      NothingDisturbed(env, c + 1, c);
      if Calm(env.others(c)) { SeenAfter(env, View(1, v.back), c + 1, n - 1); } else { SeenOutside(env, View(1, None), c + 1, n - 1, None); }
    } else if Calm(env.others(c)) {
      SeenInside(env, v, c + 1, n - 1, k - 1);
    } else {
      SeenOutside(env, Back(v), c + 1, n - 1, Some(k - 1));
    }
  }

  lemma AllUpdatesSeen(env: Env, begun: Db, c: nat, ids: seq<Id>, k: nat)
    requires k < |ids| && DbOk(begun) && ids[k] in begun.cells && ViewOf(begun, ids[k]) == View(0, Some(0))
    requires Good(env.out, c, |ids|) == |ids| && NotPosted(env, ids[k], c, c + |ids| - 1)
    requires forall i, j | 0 <= i < j < |ids| :: ids[i] != ids[j]
    ensures var db' := Updated(env, begun, c, ids);
            && DbOk(db') && ids[k] in db'.cells
            && ViewOf(db', ids[k]) == if !Undisturbed(env, c, c + k) then View(1, None)
                                      else if Undisturbed(env, c + k + 1, c + |ids| - 1) then View(1, Some(0))
                                      else View(0, None)
  {
    hide DbOk, ViewOf, NotPosted, Undisturbed, Updated, Good, Seen;
    UpdatedIsSeen(env, begun, c, ids, Some(k), ids[k]);
    SeenInside(env, View(0, Some(0)), c, |ids|, k);
  }

  /** A row that is handed out, with no result posted for it during the transaction: it is settled if
      and only if another thread's query undid the transaction before the row's own update, or none
      did between that update and the commit. */
  lemma MarkKeptExactly(db: Db, r: Round, k: nat)
    requires DbOk(db) && Legal(db, r) && k < |r.ids| && r.ids[k] in Handed(r)
    requires NotPosted(r.env, r.ids[k], r.c + 1, r.c + 2 + |r.ids|)
    ensures var u, commit := r.c + 2 + k, r.c + 2 + |r.ids|;
            Settled(After(db, r), r.ids[k]) <==> !Undisturbed(r.env, r.c + 2, u) || Undisturbed(r.env, u + 1, commit)
  {
    hide Ask, DbOk, Updated, Good, Committed, Undisturbed, PostsTo, Calm;
    var n, x := |r.ids|, r.ids[k];
    AskOk(r.env, db, r.c, Select);
    var selected := Selected(db, r);
    NewRow(selected, x);
    CommittedMeans(r.env.out, r.c + 1, n);
    AskNotPosted(r.env, selected, r.c + 1, Begin, x);
    var begun := Ask(r.env, selected, r.c + 1, Begin);
    AllUpdatesSeen(r.env, begun, r.c + 2, r.ids, k);
    var db' := Updated(r.env, begun, r.c + 2, r.ids);
    AskNotPosted(r.env, db', r.c + 2 + n, Commit, x);
    UndisturbedLast(r.env, r.c + 3 + k, r.c + 2 + n);
  }

  lemma UndisturbedLast(env: Env, lo: nat, hi: nat)
    requires lo <= hi
    ensures Undisturbed(env, lo, hi) <==> Undisturbed(env, lo, hi - 1) && Calm(env.others(hi))
  {
    hide Calm;
  }

  // ---- What a poll that fails leaves behind ----

  /** Nothing that happens on the connection during the poll undoes a transaction. */
  predicate UndoesNothing(r: Round) { forall e | e in Trace(r) :: !Undoes(e) }

  lemma {:induction false} RaisedStays(v: View<nat>, es: seq<Event>, x: Id)
    requires v.now >= 1 && forall e | e in es :: !Undoes(e)
    ensures Fold(v, es, Checks(x)).now >= 1
  {
    hide StepView, Undoes;
    if es != [] {
      RaisedStays(v, es[..|es| - 1], x);
      AreWriters(x);
    StepCases(Fold(v, es[..|es| - 1], Checks(x)), es[|es| - 1], Checks(x));
    }
  }

  lemma {:induction false} MarkedStays(dbs: seq<Db>, rounds: seq<Round>, i: nat, j: nat, x: Id)
    requires IsHistory(dbs, rounds) && i <= j <= |rounds| && x in dbs[i].cells && dbs[i].cells[x].checking >= 1
    requires forall m | i <= m < j :: UndoesNothing(rounds[m])
    ensures x in dbs[j].cells && dbs[j].cells[x].checking >= 1
    decreases j
  {
    hide DbOk, After, Legal, Trace, Fold;
    if i < j {
      MarkedStays(dbs, rounds, i, j - 1, x);
      HistoryOk(dbs, rounds, j - 1);
      assert dbs[j - 1 + 1] == After(dbs[j - 1], rounds[j - 1]);
      PartsShow(x);
      RoundIsFold(dbs[j - 1], rounds[j - 1], CheckingOf(x));
      FollowsRow(dbs[j - 1], Trace(rounds[j - 1]), dbs[j], x);
      RaisedStays(ViewOf(dbs[j - 1], x), Trace(rounds[j - 1]), x);
    }
  }

  /** A poll that starts its transaction, with nothing undone before that. */
  predicate StartsCalmly(r: Round) {
    && r.env.out(r.c).Done? && r.fieldsOk && r.ids != [] && r.env.out(r.c + 1).Done?
    && Calm(r.env.others(r.c)) && Calm(r.env.others(r.c + 1))
  }

  /** A row that is marked when a poll starts its transaction is settled by that, since "start
      transaction" commits what is open. */
  lemma BeginSettles(db: Db, r: Round, x: Id)
    requires DbOk(db) && x in db.cells && db.cells[x].checking >= 1 && StartsCalmly(r)
    ensures Settled(After(db, r), x)
  {
    hide Ask, DbOk, Updated, UpdatesTrace, Good, PostsTo, Calm;
    AskCalm(r.env, db, r.c, Select, x);
    var selected := Selected(db, r);
    AskCalm(r.env, selected, r.c + 1, Begin, x);
    var begun := Ask(r.env, selected, r.c + 1, Begin);
    SettledFromBegin(r.env, begun, r.c + 2, r.ids, x);
  }

  lemma SettledFromBegin(env: Env, begun: Db, c: nat, ids: seq<Id>, x: Id)
    requires DbOk(begun) && Settled(begun, x)
    ensures var done, db' := Good(env.out, c, |ids|), Updated(env, begun, c, ids);
            Settled(Ask(env, db', c + 1 + done, Rollback), x) && Settled(Ask(env, db', c + done, Commit), x)
  {
    hide Ask, DbOk, ViewOf, Updated, UpdatesTrace, Good, Fold, Firm, Shows, Follows;
    var done, db', v := Good(env.out, c, |ids|), Updated(env, begun, c, ids), ViewOf(begun, x);
    PartsShow(x);
    UpdatedIsFold(env, begun, c, ids, CheckingOf(x));
    FollowsRow(begun, UpdatesTrace(env, c, ids), db', x);
    FirmStays(v, UpdatesTrace(env, c, ids), x);
    SettledAsk(env, db', c + 1 + done, Rollback, x);
    SettledAsk(env, db', c + done, Commit, x);
  }

  lemma SettledAsk(env: Env, db: Db, c: nat, q: Query, x: Id)
    requires DbOk(db) && Settled(db, x)
    ensures Settled(Ask(env, db, c, q), x)
  {
    hide Ask, DbOk, ViewOf, AskTrace, Fold, Firm;
    AskRow(env, db, c, q, x);
    FirmStays(ViewOf(db, x), AskTrace(env, c, q), x);
  }

  lemma MarkedNotHanded(db: Db, r: Round, x: Id)
    requires DbOk(db) && Legal(db, r) && x in db.cells && db.cells[x].checking >= 1
    requires r.env.out(r.c).Done? ==> Calm(r.env.others(r.c))
    ensures x !in Handed(r)
  {
    hide Ask, DbOk, PostsTo, Calm;
    if r.env.out(r.c).Done? { AskCalm(r.env, db, r.c, Select, x); }
  }

  lemma CalmAtSelect(r: Round)
    requires UndoesNothing(r)
    ensures Calm(r.env.others(r.c))
  {
    var gap := r.env.others(r.c);
    GapHolds(gap, Interrupt);
    assert forall e | e in Gap(gap) :: e in Trace(r);
  }

  lemma {:induction false} GapHolds(es: seq<Foreign>, e: Foreign)
    ensures e in es ==> Other(e) in Gap(es)
  {
    if es != [] { GapHolds(es[..|es| - 1], e); }
  }

  /** Rows that are marked though no poll handed them out are stranded: if any later poll gets as far
      as starting its transaction, with nothing undone before that, they are marked for good and no
      poll ever hands them out. MarkedExactly says which failures of round i leave them marked. */
  lemma StrandedForever(dbs: seq<Db>, rounds: seq<Round>, i: nat, k: nat, j: nat, x: Id)
    requires IsHistory(dbs, rounds) && i < k < |rounds| && i <= j < |rounds|
    requires var r := rounds[i]; !Succeeds(r.env, r.c, r.ids, r.fieldsOk)
    requires x in dbs[i + 1].cells && dbs[i + 1].cells[x].checking >= 1
    requires (forall m | i < m < k :: UndoesNothing(rounds[m])) && StartsCalmly(rounds[k])
    ensures x !in Handed(rounds[j])
    ensures Settled(dbs[k + 1], x)
  {
    hide After, DbOk, Settled, Handed, Legal, UndoesNothing, StartsCalmly, Succeeds;
    MarkedStays(dbs, rounds, i + 1, k, x);
    HistoryOk(dbs, rounds, k);
    assert Legal(dbs[k], rounds[k]) && dbs[k + 1] == After(dbs[k], rounds[k]);
    BeginSettles(dbs[k], rounds[k], x);
    HistoryOk(dbs, rounds, j);
    assert Legal(dbs[j], rounds[j]);
    if j == i {
      NothingHanded(rounds[i]);
    } else if j <= k {
      MarkedStays(dbs, rounds, i + 1, j, x);
      if j < k { CalmAtSelect(rounds[j]); } else { CalmStart(rounds[k]); }
      MarkedNotHanded(dbs[j], rounds[j], x);
    } else {
      SettledStays(dbs, rounds, k + 1, j, x);
      SettledNotHanded(dbs[j], rounds[j], x);
    }
  }

  lemma CalmStart(r: Round)
    requires StartsCalmly(r)
    ensures Calm(r.env.others(r.c))
  {
  }

  lemma NothingHanded(r: Round)
    requires !Succeeds(r.env, r.c, r.ids, r.fieldsOk)
    ensures Handed(r) == []
  {
  }
}
