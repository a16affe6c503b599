/** Which failures of solutions_extract_new leave rows marked that nobody was given, and which take
    back a result that another thread posted while the transaction was open. */
module DbFailures {
  import opened Options
  import opened SolutionsDb

  /** The last query of the transaction: the rollback after a failed update, or the commit. */
  function LastQuery(out: nat -> Outcome, c: nat, n: nat): nat {
    var m := Good(out, c + 1, n);
    if m < n then c + 2 + m else c + 1 + n
  }

  lemma GoodSteps(out: nat -> Outcome, c: nat, n: nat)
    ensures Good(out, c, n) < n ==> !out(c + Good(out, c, n)).Done?
    decreases n
  {
    if n > 0 && out(c).Done? { GoodSteps(out, c + 1, n - 1); }
  }

  /** n + 1 successes are n successes and one more. */
  lemma {:induction false} GoodThenOne(out: nat -> Outcome, c: nat, n: nat)
    ensures Good(out, c, n + 1) == if Good(out, c, n) < n then Good(out, c, n) else n + if out(c + n).Done? then 1 else 0
    decreases n
  {
    if n > 0 && out(c).Done? { GoodThenOne(out, c + 1, n - 1); }
  }

  lemma CommittedMeans(out: nat -> Outcome, c: nat, n: nat)
    ensures Committed(out, c, n) <==> out(c).Done? && Good(out, c + 1, n) == n && out(c + 1 + n).Done?
  {
    GoodThenOne(out, c + 1, n);
  }

  /** No query of another thread undoes anything between queries lo and hi. */
  ghost predicate Undisturbed(env: Env, lo: nat, hi: int) { forall j | lo <= j <= hi :: Calm(env.others(j)) }

  /** One query of an undisturbed call, seen from row x. */
  lemma AskCalm(env: Env, db: Db, c: nat, q: Query, x: Id)
    requires DbOk(db) && x in db.cells && Calm(env.others(c))
    ensures DbOk(Ask(env, db, c, q)) && x in Ask(env, db, c, q).cells
    ensures var v := ViewOf(db, x);
            ViewOf(Ask(env, db, c, q), x) == OursView(if PostsTo(env.others(c), x) then View(2, v.back) else v, x, q, env.out(c))
  {
    hide DbOk, ViewOf, Ask, OursView;
    AskIsView(env, db, c, q, x);
    CalmView(ViewOf(db, x), env.others(c), x);
  }

  // ---- Posts ----

  /** A result for x is posted before one of the queries lo to hi. */
  ghost predicate PostedIn(env: Env, x: Id, lo: nat, hi: int) { exists g | lo <= g <= hi :: PostsTo(env.others(g), x) }

  lemma PostedFirst(env: Env, x: Id, lo: nat, hi: int)
    requires lo <= hi
    ensures PostedIn(env, x, lo, hi) <==> PostsTo(env.others(lo), x) || PostedIn(env, x, lo + 1, hi)
  {
    hide PostsTo;
  }

  /** The last of the updates that are made or tried. */
  function LastUpdate(out: nat -> Outcome, c: nat, n: nat): int {
    var m := Good(out, c, n);
    if m < n then c + m else c + m - 1
  }

  lemma LastUpdateStep(out: nat -> Outcome, c: nat, n: nat)
    requires n > 0
    ensures LastUpdate(out, c, n) == if out(c).Done? then LastUpdate(out, c + 1, n - 1) else c
    ensures LastUpdate(out, c, n) >= c
    ensures Good(out, c, n) == if out(c).Done? then 1 + Good(out, c + 1, n - 1) else 0
    ensures Good(out, c, n) <= n
  {
  }

  lemma {:induction false} UpdatesKeepPosts(env: Env, db: Db, c: nat, ids: seq<Id>, x: Id)
    requires DbOk(db) && x in db.cells && x !in ids && ViewOf(db, x).back.Some?
    requires Undisturbed(env, c, LastUpdate(env.out, c, |ids|))
    ensures var m, db' := Good(env.out, c, |ids|), Updated(env, db, c, ids);
            var v := ViewOf(db, x);
            && DbOk(db') && x in db'.cells
            && ViewOf(db', x) ==
               if m < |ids| && env.out(c + m).Undone? then View(v.back.value, None)
               else View(if PostedIn(env, x, c, LastUpdate(env.out, c, |ids|)) then 2 else v.now, v.back)
    decreases |ids|
  {
    hide ViewOf, DbOk, Ask, PostsTo, LastUpdate, PostedIn, Good, Calm;
    if ids == [] {
      NoUpdates(env, x, c);
    } else {
      LastUpdateStep(env.out, c, |ids|);
      PostedFirst(env, x, c, LastUpdate(env.out, c, |ids|));
      AskCalm(env, db, c, Update(ids[0]), x);
      if env.out(c).Done? {
        UpdatesKeepPosts(env, Ask(env, db, c, Update(ids[0])), c + 1, ids[1..], x);
      } else {
        NoneIn(env, x, c + 1, c);
      }
    }
  }

  lemma NoUpdates(env: Env, x: Id, c: nat)
    ensures Good(env.out, c, 0) == 0 && !PostedIn(env, x, c, LastUpdate(env.out, c, 0))
  {
  }

  lemma NoneIn(env: Env, x: Id, lo: nat, hi: int)
    requires hi < lo
    ensures !PostedIn(env, x, lo, hi)
  {
  }

  /** A result posted before query g of the transaction stays: the transaction is not undone at or
      after that query, by the server or by its own rollback. */
  predicate PostStays(out: nat -> Outcome, c: nat, n: nat, g: nat) {
    var m := Good(out, c + 1, n);
    if m < n then
      && (g <= c + 1 + m ==> !out(c + 1 + m).Undone?)
      && (out(c + 1 + m).Failed? ==> out(c + 2 + m).Failed?)
    else !out(c + 1 + n).Undone?
  }

  /** Some result posted inside the transaction stays. */
  ghost predicate SomePostStays(env: Env, c: nat, n: nat, x: Id) {
    exists g: nat | c < g <= LastQuery(env.out, c, n) :: PostsTo(env.others(g), x) && PostStays(env.out, c, n, g)
  }

  /** In a call that no other thread's query undoes: a row is finished when the transaction is over if
      and only if some result posted for it stays. */
  lemma PostSurvives(env: Env, db: Db, c: nat, ids: seq<Id>, x: Id)
    requires DbOk(db) && x in db.cells && x !in ids && db.cells[x].checking != 2
    requires env.out(c).Done? && !PostsTo(env.others(c), x) && Undisturbed(env, c, LastQuery(env.out, c, |ids|))
    ensures var after := Transaction(env, db, c, ids);
            x in after.cells && (after.cells[x].checking == 2 <==> SomePostStays(env, c, |ids|, x))
  {
    hide DbOk, Ask, Updated, PostsTo, Calm, SomePostStays, PostedIn;
    var n, m := |ids|, Good(env.out, c + 1, |ids|);
    AskCalm(env, db, c, Begin, x);
    var begun := Ask(env, db, c, Begin);
    GoodSteps(env.out, c + 1, n);
    UpdatesKeepPosts(env, begun, c + 1, ids, x);
    var db' := Updated(env, begun, c + 1, ids);
    StaysCases(env, c, n, x);
    if m < n { AskCalm(env, db', c + 2 + m, Rollback, x); } else { AskCalm(env, db', c + 1 + n, Commit, x); }
  }

  lemma StaysCases(env: Env, c: nat, n: nat, x: Id)
    ensures var out, m := env.out, Good(env.out, c + 1, n);
            SomePostStays(env, c, n, x) <==>
              if m == n then
                !out(c + 1 + n).Undone? && (PostedIn(env, x, c + 1, LastUpdate(out, c + 1, n)) || PostsTo(env.others(c + 1 + n), x))
              else if out(c + 1 + m).Undone? then PostsTo(env.others(c + 2 + m), x)
              else out(c + 2 + m).Failed? && (PostedIn(env, x, c + 1, LastUpdate(out, c + 1, n)) || PostsTo(env.others(c + 2 + m), x))
  {
    hide PostsTo;
    var out, m := env.out, Good(env.out, c + 1, n);
    GoodSteps(out, c + 1, n);
    var last: nat := LastQuery(out, c, n);
    assert LastUpdate(out, c + 1, n) == last - 1;
    if PostsTo(env.others(last), x) && PostStays(out, c, n, last) { assert SomePostStays(env, c, n, x); }
    forall g: nat | c < g < last && PostsTo(env.others(g), x) && PostStays(out, c, n, g) ensures PostedIn(env, x, c + 1, last - 1) {
    }
    if PostedIn(env, x, c + 1, last - 1) {
      var g: int :| c + 1 <= g <= last - 1 && PostsTo(env.others(g), x);
      if PostStays(out, c, n, g) { assert SomePostStays(env, c, n, x); }
    }
  }

  // ---- Marks ----

  ghost predicate NotPosted(env: Env, x: Id, lo: nat, hi: int) {
    forall j | lo <= j <= hi :: !PostsTo(env.others(j), x)
  }

  lemma {:induction false} UpdatesMark(env: Env, db: Db, c: nat, ids: seq<Id>, x: Id)
    requires DbOk(db) && x in db.cells && ViewOf(db, x).back.Some?
    requires var hi := c + Good(env.out, c, |ids|); NotPosted(env, x, c, hi) && Undisturbed(env, c, hi)
    ensures var m, db' := Good(env.out, c, |ids|), Updated(env, db, c, ids);
            var v := ViewOf(db, x);
            && DbOk(db') && x in db'.cells
            && ViewOf(db', x) ==
               if m < |ids| && env.out(c + m).Undone? then View(v.back.value, None)
               else View(if x in ids[..m] then 1 else v.now, v.back)
    decreases |ids|
  {
    hide ViewOf, DbOk, Ask, PostsTo, Calm;
    if ids != [] {
      AskCalm(env, db, c, Update(ids[0]), x);
      if env.out(c).Done? {
        UpdatesMark(env, Ask(env, db, c, Update(ids[0])), c + 1, ids[1..], x);
        var m := Good(env.out, c + 1, |ids| - 1);
        assert ids[..1 + m] == [ids[0]] + ids[1..][..m];
      }
    }
  }

  /** The row is marked when the call is over: its update was made, and neither the rollback nor
      the server took it back. */
  predicate MarkStays(out: nat -> Outcome, c: nat, ids: seq<Id>, x: Id) {
    var n, m := |ids|, Good(out, c + 1, |ids|);
    && out(c).Done? && x in ids[..m]
    && if m < n then out(c + 1 + m).Failed? && out(c + 2 + m).Failed? else !out(c + 1 + n).Undone?
  }

  /** In a call that no other thread's query undoes: after the transaction a selected row has checking
      1 exactly if MarkStays, and 0 otherwise, provided nobody posted a result for it meanwhile. */
  lemma MarkedExactly(env: Env, db: Db, c: nat, ids: seq<Id>, x: Id)
    requires DbOk(db) && x in db.cells && db.cells[x].checking == 0
    requires var hi := LastQuery(env.out, c, |ids|); NotPosted(env, x, c, hi) && Undisturbed(env, c, hi)
    ensures var after := Transaction(env, db, c, ids);
            x in after.cells && after.cells[x].checking == if MarkStays(env.out, c, ids, x) then 1 else 0
  {
    hide Ask, Updated, PostsTo, Calm;
    var n, m := |ids|, Good(env.out, c + 1, |ids|);
    AskCalm(env, db, c, Begin, x);
    if env.out(c).Done? {
      var begun := Ask(env, db, c, Begin);
      GoodSteps(env.out, c + 1, n);
      UpdatesMark(env, begun, c + 1, ids, x);
      var db' := Updated(env, begun, c + 1, ids);
      if m < n { AskCalm(env, db', c + 2 + m, Rollback, x); } else { AskCalm(env, db', c + 1 + n, Commit, x); }
    }
  }

  /** A transaction that commits leaves every selected row marked, if no other thread's query undoes it. */
  lemma CommittedMarks(env: Env, db: Db, c: nat, ids: seq<Id>, x: Id)
    requires DbOk(db) && x in db.cells && db.cells[x].checking == 0 && x in ids && Committed(env.out, c, |ids|)
    requires var hi := LastQuery(env.out, c, |ids|); NotPosted(env, x, c, hi) && Undisturbed(env, c, hi)
    ensures var after := Transaction(env, db, c, ids); x in after.cells && after.cells[x].checking == 1
  {
    hide Transaction, DbOk, NotPosted, Undisturbed;
    CommittedMeans(env.out, c, |ids|);
    assert ids[..|ids|] == ids;
    MarkedExactly(env, db, c, ids, x);
  }
}
