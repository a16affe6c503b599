/** solutions_db.c over one MySQL connection: solutions_extract_new query by query, with every query
    free to fail and other threads free to use the connection between any two of them, as
    push_solution does when it posts "FL" without the database mutex. */
module SolutionsDb {
  import opened Options

  type Id = nat

  /** The columns that change; checking is 0 for new, 1 for handed out, 2 for finished. */
  datatype Cell = Cell(checking: nat, accepted: bool, response: string)

  type Cells = map<Id, Cell>

  /** The rows as this connection sees them. Inside a transaction, `undo` holds the cells it has
      overwritten, as they were before it. */
  datatype Db = Db(cells: Cells, undo: Option<Cells>)

  /** The queries of solutions_extract_new. */
  datatype Query = Select | Begin | Update(id: Id) | Commit | Rollback

  /** A query that fails may or may not make the server undo the open transaction, as it does when
      the connection is lost. */
  datatype Outcome = Done | Failed | Undone

  /** What other threads and connections do: a new row, a result for a row, or a query for one that
      fails and makes the server undo the transaction that is open. */
  datatype Foreign = Submit(id: Id) | Post(id: Id, accepted: bool, response: string) | Interrupt

  function Write(db: Db, id: Id, c: Cell): Db {
    if id !in db.cells then db
    else Db(db.cells[id := c],
            if db.undo.Some? && id !in db.undo.value then Some(db.undo.value[id := db.cells[id]]) else db.undo)
  }

  function TakeBack(db: Db): Db {
    if db.undo.Some? then Db(db.cells + db.undo.value, None) else db
  }

  /** "start transaction" commits a transaction that is still open. */
  function Ours(db: Db, q: Query, o: Outcome): Db {
    match o
    case Failed => db
    case Undone => TakeBack(db)
    case Done =>
      match q
      case Select => db
      case Begin => Db(db.cells, Some(map[]))
      case Update(id) => if id in db.cells then Write(db, id, db.cells[id].(checking := 1)) else db
      case Commit => Db(db.cells, None)
      case Rollback => TakeBack(db)
  }

  function Theirs(db: Db, e: Foreign): Db {
    match e
    case Submit(id) => if id in db.cells then db else Db(db.cells[id := Cell(0, false, "")], db.undo)
    case Post(id, accepted, response) => Write(db, id, Cell(2, accepted, response))
    case Interrupt => TakeBack(db)
  }

  function TheirsAll(db: Db, es: seq<Foreign>): Db {
    if es == [] then db else Theirs(TheirsAll(db, es[..|es| - 1]), es[|es| - 1])
  }

  /** The outcome of query number i, and what happens on the connection just before it. */
  datatype Env = Env(out: nat -> Outcome, others: nat -> seq<Foreign>)

  function Ask(env: Env, db: Db, c: nat, q: Query): Db {
    Ours(TheirsAll(db, env.others(c)), q, env.out(c))
  }

  /** How many of the n queries from number c on succeed before one fails. */
  function Good(out: nat -> Outcome, c: nat, n: nat): (r: nat)
    ensures r <= n
    decreases n
  {
    if n == 0 || !out(c).Done? then 0 else 1 + Good(out, c + 1, n - 1)
  }

  function Updated(env: Env, db: Db, c: nat, ids: seq<Id>): Db
    decreases |ids|
  {
    if ids == [] then db
    else
      var db' := Ask(env, db, c, Update(ids[0]));
      if env.out(c).Done? then Updated(env, db', c + 1, ids[1..]) else db'
  }

  /** The transaction of solutions_extract_new, from query c on. */
  function Transaction(env: Env, db: Db, c: nat, ids: seq<Id>): Db {
    var begun := Ask(env, db, c, Begin);
    if !env.out(c).Done? then begun
    else
      var done := Good(env.out, c + 1, |ids|);
      var db' := Updated(env, begun, c + 1, ids);
      if done < |ids| then Ask(env, db', c + 2 + done, Rollback) else Ask(env, db', c + 1 + done, Commit)
  }

  /** start transaction, n updates and commit all succeed, from query c on. */
  function Committed(out: nat -> Outcome, c: nat, n: nat): bool { Good(out, c, n + 2) == n + 2 }

  /** The result of `select ... where checking = 0`, in the order the server chose. */
  ghost predicate Selects(cells: Cells, ids: seq<Id>) {
    && (forall i | 0 <= i < |ids| :: ids[i] in cells && cells[ids[i]].checking == 0)
    && (forall i, j | 0 <= i < j < |ids| :: ids[i] != ids[j])
    && (forall id | id in cells && cells[id].checking == 0 :: id in ids)
  }

  /** solutions_extract_new from query c on; ids is what its select returns. */
  function Extraction(env: Env, db: Db, c: nat, ids: seq<Id>, fieldsOk: bool): Db {
    var selected := Ask(env, db, c, Select);
    if !env.out(c).Done? || !fieldsOk || ids == [] then selected else Transaction(env, selected, c + 1, ids)
  }

  predicate Succeeds(env: Env, c: nat, ids: seq<Id>, fieldsOk: bool) {
    env.out(c).Done? && fieldsOk && (ids == [] || Committed(env.out, c + 1, |ids|))
  }

  // ---- One row at a time ----

  /** What a row holds, or a part of it, and what undoing the open transaction would make it. */
  datatype View<T> = View(now: T, back: Option<T>)

  function ViewOf(db: Db, x: Id): View<nat>
    requires x in db.cells
  {
    var now := db.cells[x].checking;
    View(now, if db.undo.None? then None
              else Some(if x in db.undo.value then db.undo.value[x].checking else now))
  }

  /** Only known rows are overwritten, and only with 1 or 2. */
  ghost predicate DbOk(db: Db) {
    db.undo.Some? ==> forall x | x in db.undo.value :: x in db.cells && db.cells[x].checking >= 1
  }

  function Back<T>(v: View<T>): View<T> { if v.back.Some? then View(v.back.value, None) else v }

  function OursView(v: View<nat>, x: Id, q: Query, o: Outcome): View<nat> {
    match o
    case Failed => v
    case Undone => Back(v)
    case Done =>
      match q
      case Select => v
      case Begin => View(v.now, Some(v.now))
      case Update(id) => if id == x then View(1, v.back) else v
      case Commit => View(v.now, None)
      case Rollback => Back(v)
  }

  predicate PostsTo(es: seq<Foreign>, x: Id) { exists i | 0 <= i < |es| :: es[i].Post? && es[i].id == x }

  function TheirView(v: View<nat>, e: Foreign, x: Id): View<nat> {
    match e
    case Submit(_) => v
    case Post(id, _, _) => if id == x then View(2, v.back) else v
    case Interrupt => Back(v)
  }

  function TheirsView(v: View<nat>, es: seq<Foreign>, x: Id): View<nat> {
    if es == [] then v else TheirView(TheirsView(v, es[..|es| - 1], x), es[|es| - 1], x)
  }

  /** None of these undoes the transaction. */
  predicate Calm(es: seq<Foreign>) { Interrupt !in es }

  lemma {:induction false} CalmView(v: View<nat>, es: seq<Foreign>, x: Id)
    requires Calm(es)
    ensures TheirsView(v, es, x) == if PostsTo(es, x) then View(2, v.back) else v
  {
    if es != [] {
      var init, last := es[..|es| - 1], es[|es| - 1];
      assert es == init + [last];
      CalmView(v, init, x);
      PostsToAppend(init, last, x);
    }
  }

  lemma WriteView(db: Db, id: Id, c: Cell, x: Id)
    requires DbOk(db) && x in db.cells && c.checking >= 1
    ensures DbOk(Write(db, id, c)) && x in Write(db, id, c).cells
    ensures ViewOf(Write(db, id, c), x) == if id == x then View(c.checking, ViewOf(db, x).back) else ViewOf(db, x)
  {
  }

  lemma TakeBackView(db: Db, x: Id)
    requires DbOk(db) && x in db.cells
    ensures DbOk(TakeBack(db)) && x in TakeBack(db).cells && ViewOf(TakeBack(db), x) == Back(ViewOf(db, x))
  {
  }

  lemma OursIsView(db: Db, q: Query, o: Outcome, x: Id)
    requires DbOk(db) && x in db.cells
    ensures DbOk(Ours(db, q, o)) && x in Ours(db, q, o).cells
    ensures ViewOf(Ours(db, q, o), x) == OursView(ViewOf(db, x), x, q, o)
  {
    hide TakeBack, Write;
    TakeBackView(db, x);
    if q.Update? && q.id in db.cells { WriteView(db, q.id, db.cells[q.id].(checking := 1), x); }
  }

  lemma TheirsIsView(db: Db, e: Foreign, x: Id)
    requires DbOk(db) && x in db.cells
    ensures DbOk(Theirs(db, e)) && x in Theirs(db, e).cells
    ensures ViewOf(Theirs(db, e), x) == TheirView(ViewOf(db, x), e, x)
  {
    hide Write, TakeBack;
    match e
    case Submit(id) =>
    case Post(id, accepted, response) => WriteView(db, id, Cell(2, accepted, response), x);
    case Interrupt => TakeBackView(db, x);
  }

  lemma PostsToAppend(es: seq<Foreign>, e: Foreign, x: Id)
    ensures PostsTo(es + [e], x) <==> PostsTo(es, x) || (e.Post? && e.id == x)
  {
    var all := es + [e];
    if PostsTo(es, x) {
      var i :| 0 <= i < |es| && es[i].Post? && es[i].id == x;
      assert all[i] == es[i];
    }
    assert all[|es|] == e;
  }

  lemma {:induction false} TheirsAllIsView(db: Db, es: seq<Foreign>, x: Id)
    requires DbOk(db) && x in db.cells
    ensures DbOk(TheirsAll(db, es)) && x in TheirsAll(db, es).cells
    ensures ViewOf(TheirsAll(db, es), x) == TheirsView(ViewOf(db, x), es, x)
  {
    hide DbOk, ViewOf, Theirs, TheirView;
    if es != [] {
      TheirsAllIsView(db, es[..|es| - 1], x);
      TheirsIsView(TheirsAll(db, es[..|es| - 1]), es[|es| - 1], x);
    }
  }

  /** One query with what comes before it, seen from row x. */
  lemma AskIsView(env: Env, db: Db, c: nat, q: Query, x: Id)
    requires DbOk(db) && x in db.cells
    ensures DbOk(Ask(env, db, c, q)) && x in Ask(env, db, c, q).cells
    ensures ViewOf(Ask(env, db, c, q), x) == OursView(TheirsView(ViewOf(db, x), env.others(c), x), x, q, env.out(c))
  {
    hide DbOk, ViewOf, Ours, OursView;
    TheirsAllIsView(db, env.others(c), x);
    OursIsView(TheirsAll(db, env.others(c)), q, env.out(c), x);
  }
}
