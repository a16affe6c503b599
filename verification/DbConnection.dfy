/** solutions_extract_new and solution_post_result as they run on a connection. */
module DbConnection {
  import opened Options
  import opened SolutionsDb
  import DbFailures

  const ERR_DB: nat := 1
  const ERR_SCHEMA: nat := 2
  const ERR_ARGS: nat := 3

  const FIELDS_COUNT: nat := 9

  /** A row as mysql_fetch_row gives it: id, user, task, time, source, compiler, checking, ac and
      response, all as text. */
  type Row = seq<string>

  predicate IsDigit(c: char) { '0' <= c <= '9' }

  /** atoi on an unsigned column: the number that the leading digits make. */
  function Atoi(s: string): nat { Digits(s, 0) }

  function Digits(s: string, n: nat): nat
    decreases |s|
  {
    if s == [] || !IsDigit(s[0]) then n else Digits(s[1..], 10 * n + (s[0] as int - '0' as int))
  }

  /** How the server writes a number. */
  function Decimal(n: nat): (r: string)
    ensures r != [] && forall i | 0 <= i < |r| :: IsDigit(r[i])
  {
    if n < 10 then ['0' + n as char] else Decimal(n / 10) + ['0' + (n % 10) as char]
  }

  lemma {:induction false} DigitsAppend(s: string, c: char, n: nat)
    requires IsDigit(c) && forall i | 0 <= i < |s| :: IsDigit(s[i])
    ensures Digits(s + [c], n) == 10 * Digits(s, n) + (c as int - '0' as int)
    decreases |s|
  {
    if s == [] {
      assert (s + [c])[1..] == [];
    } else {
      assert (s + [c])[1..] == s[1..] + [c];
      DigitsAppend(s[1..], c, 10 * n + (s[0] as int - '0' as int));
    }
  }

  /** A numeric column comes back as the number it holds. */
  lemma {:induction false} AtoiOfDecimal(n: nat)
    ensures Atoi(Decimal(n)) == n
  {
    if n >= 10 {
      AtoiOfDecimal(n / 10);
      DigitsAppend(Decimal(n / 10), '0' + (n % 10) as char, 0);
    } else {
      var d := Decimal(n);
      assert d[1..] == [] && Digits(d[1..], n) == n && d[0] as int - '0' as int == n;
    }
  }

  /** solution_t without its time, which stays NULL. */
  datatype Solution = Solution(id: Id, userId: nat, taskId: nat, source: string, compilerId: nat,
                               checking: nat, accepted: bool, response: string)

  /** Which column each field is: the source gets a terminating NUL, and the response, whose length is
      kept in eight bits, is cut accordingly. */
  ghost predicate IsOfRow(sln: Solution, row: Row) {
    && |row| == FIELDS_COUNT
    && sln.id == Atoi(row[0]) && sln.userId == Atoi(row[1]) && sln.taskId == Atoi(row[2]) && sln.compilerId == Atoi(row[5])
    && |sln.source| == |row[4]| + 1 && sln.source[..|row[4]|] == row[4] && sln.source[|row[4]|] == '\0'
    && sln.checking == Atoi(row[6]) % 0x100 && (sln.accepted <==> Atoi(row[7]) != 0)
    && |sln.response| == |row[8]| % 0x100 && sln.response <= row[8]
  }

  /** What the select gives for these ids: rows of fieldCount columns, with the id in the first. */
  ghost predicate RowsFor(rows: Id -> Row, ids: seq<Id>, fieldCount: nat) {
    forall i | 0 <= i < |ids| :: |rows(ids[i])| == fieldCount && (fieldCount > 0 ==> Atoi(rows(ids[i])[0]) == ids[i])
  }

  class Connection {
    const env: Env
    const rows: Id -> Row
    var db: Db
    var calls: nat    // queries made by solutions_extract_new so far

    constructor (env: Env, rows: Id -> Row, db: Db)
      ensures this.env == env && this.rows == rows && this.db == db && calls == 0
    {
      this.env, this.rows, this.db, calls := env, rows, db, 0;
    }

    method Ask(q: Query) returns (ok: bool)
      modifies this
      ensures ok == env.out(old(calls)).Done? && calls == old(calls) + 1
      ensures db == SolutionsDb.Ask(env, old(db), old(calls), q)
    {
      db := TheirsAll(db, env.others(calls));
      ok := env.out(calls).Done?;
      db := Ours(db, q, env.out(calls));
      calls := calls + 1;
    }

    /** The updates, up to the first that fails. */
    method UpdateEach(ids: seq<Id>) returns (done: nat)
      modifies this
      ensures done == Good(env.out, old(calls), |ids|)
      ensures db == Updated(env, old(db), old(calls), ids)
      ensures calls == old(calls) + done + if done < |ids| then 1 else 0
    {
      done := 0;
      assert ids[0..] == ids;
      while done < |ids|
        invariant done <= |ids| && calls == old(calls) + done
        invariant Good(env.out, old(calls), |ids|) == done + Good(env.out, calls, |ids| - done)
        invariant Updated(env, old(db), old(calls), ids) == Updated(env, db, calls, ids[done..])
      {
        assert ids[done..][1..] == ids[done + 1..];
        var ok := Ask(Update(ids[done]));
        if !ok { return; }
        done := done + 1;
      }
    }

    /** The transaction of solutions_extract_new. */
    method MarkSelected(ids: seq<Id>) returns (code: nat)
      modifies this
      ensures db == Transaction(env, old(db), old(calls), ids)
      ensures code == if Committed(env.out, old(calls), |ids|) then 0 else ERR_DB
      ensures code == 0 ==> calls == old(calls) + 2 + |ids|
    {
      hide Updated, Ours, TheirsAll, Committed;
      DbFailures.CommittedMeans(env.out, calls, |ids|);
      var ok := Ask(Begin);
      if !ok { return ERR_DB; }
      var done := UpdateEach(ids);
      if done < |ids| {
        ok := Ask(Rollback);
        return ERR_DB;
      }
      ok := Ask(Commit);
      return if ok then 0 else ERR_DB;
    }

    /** The loop over the result: one solution_t per row. */
    method FillIn(ids: seq<Id>) returns (filled: seq<Solution>)
      requires RowsFor(rows, ids, FIELDS_COUNT)
      ensures |filled| == |ids|
      ensures forall i | 0 <= i < |ids| :: filled[i].id == ids[i] && IsOfRow(filled[i], rows(ids[i]))
    {
      filled := [];
      var i := 0;
      while i < |ids|
        invariant i <= |ids| && |filled| == i
        invariant forall j | 0 <= j < i :: filled[j].id == ids[j] && IsOfRow(filled[j], rows(ids[j]))
      {
        var row := rows(ids[i]);
        var responseLen := |row[8]| % 0x100;
        filled := filled + [Solution(Atoi(row[0]), Atoi(row[1]), Atoi(row[2]), row[4] + ['\0'], Atoi(row[5]),
                                     Atoi(row[6]) % 0x100, Atoi(row[7]) != 0, row[8][..responseLen])];
        i := i + 1;
      }
    }

    /** solutions_extract_new, followed by what poll_database makes of it: on an error nothing is
        handed out, otherwise every selected row is. `ids` is what the select returns. */
    method ExtractNew(ids: seq<Id>, fieldCount: nat, lenGiven: bool) returns (code: nat, handed: seq<Solution>)
      requires env.out(calls).Done? ==> Selects(SolutionsDb.Ask(env, db, calls, Select).cells, ids) && RowsFor(rows, ids, fieldCount)
      modifies this
      ensures !lenGiven ==> code == ERR_ARGS && db == old(db) && calls == old(calls)
      ensures lenGiven ==> db == Extraction(env, old(db), old(calls), ids, fieldCount == FIELDS_COUNT)
      ensures lenGiven ==> (code == 0 <==> Succeeds(env, old(calls), ids, fieldCount == FIELDS_COUNT))
      ensures lenGiven && code != 0 ==> code == if env.out(old(calls)).Done? && fieldCount != FIELDS_COUNT then ERR_SCHEMA else ERR_DB
      ensures code == 0 && ids != [] ==> calls == old(calls) + 3 + |ids|
      ensures code != 0 ==> handed == []
      ensures code == 0 ==> |handed| == |ids| && forall i | 0 <= i < |ids| :: handed[i].id == ids[i] && IsOfRow(handed[i], rows(ids[i]))
    {
      hide Atoi, IsOfRow;
      handed := [];
      if !lenGiven { return ERR_ARGS, []; }
      var ok := Ask(Select);
      if !ok { return ERR_DB, []; }
      if fieldCount != FIELDS_COUNT { return ERR_SCHEMA, []; }
      if |ids| == 0 { return 0, []; }
      var filled := FillIn(ids);
      code := MarkSelected(ids);
      if code == 0 { handed := filled; }
    }

    /** solution_post_result, called by any thread; `o` is how its query ends. */
    method PostResult(id: Id, accepted: bool, response: string, o: Outcome) returns (code: nat)
      modifies this`db
      ensures code == if o.Done? then 0 else ERR_DB
      ensures o.Done? && id in old(db).cells ==>
                db.cells == old(db).cells[id := Cell(2, accepted, response)] && db.undo.Some? == old(db).undo.Some?
      ensures o.Done? && id !in old(db).cells ==> db == old(db)
      ensures o.Failed? ==> db == old(db)
      ensures o.Undone? ==> db == TakeBack(old(db))
    {
      code := if o.Done? then 0 else ERR_DB;
      match o
      case Done => db := Theirs(db, Post(id, accepted, response));
      case Failed =>
      case Undone => db := Theirs(db, Interrupt);
    }
  }

  // ---- Failing inputs ----

  function RowOf(id: Id): Row { [Decimal(id), "1", "1", "", "", "7", "0", "0", ""] }

  lemma RowsAre(ids: seq<Id>)
    ensures RowsFor((id: nat) => RowOf(id), ids, 9)
  {
    hide Atoi, Decimal;
    forall i | 0 <= i < |ids| ensures Atoi(RowOf(ids[i])[0]) == ids[i] { AtoiOfDecimal(ids[i]); }
  }

  /** Select, start transaction and update succeed, the commit fails and nothing is undone: row 5 is
      marked and nobody is given it. */
  method CommitFailureStrandsARow() returns (code: nat, handed: seq<Solution>, checking: nat)
    ensures code == ERR_DB && handed == [] && checking == 1
  {
    var env := Env((i: nat) => if i == 3 then Failed else Done, (i: nat) => []);
    var db := Db(map[5 := Cell(0, false, "")], None);
    var conn := new Connection(env, (id: nat) => RowOf(id), db);
    assert SolutionsDb.Ask(env, db, 0, Select) == db;
    assert Selects(db.cells, [5]) by { assert [5][0] == 5; }
    RowsAre([5]);
    code, handed := conn.ExtractNew([5], 9, true);
    DbFailures.CommittedMeans(env.out, 1, 1);
    ghost var last := DbFailures.LastQuery(env.out, 1, 1);
    assert DbFailures.NotPosted(env, 5, 1, last) && DbFailures.Undisturbed(env, 1, last);
    DbFailures.MarkedExactly(env, db, 1, [5], 5);
    assert Good(env.out, 2, 1) == 1 && [5][..1] == [5];
    checking := conn.db.cells[5].checking;
  }

  /** Row 6 is posted between the update of row 5 and the rollback after a failed update: the
      result is gone. */
  method RollbackTakesBackAPost() returns (code: nat, checking: nat)
    ensures code == ERR_DB && checking == 1
  {
    var env := Env((i: nat) => if i == 2 then Failed else Done, (i: nat) => if i == 2 then [Post(6, false, "FL")] else []);
    var db := Db(map[5 := Cell(0, false, ""), 6 := Cell(1, false, "")], None);
    var conn := new Connection(env, (id: nat) => RowOf(id), db);
    assert SolutionsDb.Ask(env, db, 0, Select) == db;
    assert Selects(db.cells, [5]) by { assert [5][0] == 5; }
    RowsAre([5]);
    var handed;
    code, handed := conn.ExtractNew([5], 9, true);
    DbFailures.CommittedMeans(env.out, 1, 1);
    ghost var begun := SolutionsDb.Ask(env, db, 1, Begin);
    assert begun == Db(db.cells, Some(map[]));
    ghost var posted := Theirs(begun, Post(6, false, "FL"));
    assert TheirsAll(begun, [Post(6, false, "FL")]) == posted by { assert [Post(6, false, "FL")][..0] == []; }
    assert Updated(env, begun, 2, [5]) == posted;
    assert conn.db == TakeBack(posted);
    checking := conn.db.cells[6].checking;
  }

  /** Rows 5 and 6 are new; before query 3 another thread's query fails and undoes the transaction. */
  const TWO_NEW: Cells := map[5 := Cell(0, false, ""), 6 := Cell(0, false, "")]

  function Interrupted(): Env { Env((i: nat) => Done, (i: nat) => if i == 3 then [Interrupt] else []) }

  lemma UpdateIsLost()
    ensures Extraction(Interrupted(), Db(TWO_NEW, None), 0, [5, 6], true) == Db(TWO_NEW[6 := Cell(1, false, "")], None)
  {
    var env := Interrupted();
    var begun := Db(TWO_NEW, Some(map[]));
    var marked := Db(TWO_NEW[5 := Cell(1, false, "")], Some(map[5 := Cell(0, false, "")]));
    var end := Db(TWO_NEW[6 := Cell(1, false, "")], None);
    assert SolutionsDb.Ask(env, begun, 2, Update(5)) == marked;
    assert TheirsAll(marked, [Interrupt]) == TakeBack(marked) by { assert [Interrupt][..0] == []; }
    assert TakeBack(marked) == Db(TWO_NEW, None);
    assert SolutionsDb.Ask(env, marked, 3, Update(6)) == end;
    assert Updated(env, marked, 3, [6]) == end;
    assert Updated(env, begun, 2, [5, 6]) == end by { assert [5, 6][1..] == [6]; }
    AllGood(env, 2, 2);
  }

  lemma AllGood(env: Env, c: nat, n: nat)
    requires forall i: nat :: env.out(i) == Done
    ensures Good(env.out, c, n) == n
    decreases n
  {
    if n > 0 { AllGood(env, c + 1, n - 1); }
  }

  /** Every query of the poller succeeds, but the update of row 5 is undone by another thread's query
      before the one of row 6. Both rows are handed out; row 5 is new again, and the next poll hands
      it out once more. */
  method HandedTwice() returns (first: seq<Solution>, second: seq<Solution>)
    ensures |first| == 2 && |second| == 1 && first[0].id == 5 && second[0].id == 5
  {
    hide RowsFor, IsOfRow, Extraction, Selects, Succeeds, Interrupted;
    var env := Interrupted();
    var conn := new Connection(env, (id: nat) => RowOf(id), Db(TWO_NEW, None));
    RowsAre([5, 6]);
    RowsAre([5]);
    FirstPoll();
    var code;
    code, first := conn.ExtractNew([5, 6], 9, true);
    UpdateIsLost();
    SecondPoll();
    code, second := conn.ExtractNew([5], 9, true);
  }

  lemma FirstPoll()
    ensures var env := Interrupted();
            Selects(SolutionsDb.Ask(env, Db(TWO_NEW, None), 0, Select).cells, [5, 6]) && Succeeds(env, 0, [5, 6], true)
  {
    AllGood(Interrupted(), 1, 4);
    assert [5, 6][0] == 5 && [5, 6][1] == 6;
  }

  lemma SecondPoll()
    ensures var env, db := Interrupted(), Db(TWO_NEW[6 := Cell(1, false, "")], None);
            Selects(SolutionsDb.Ask(env, db, 5, Select).cells, [5]) && Succeeds(env, 5, [5], true)
  {
    AllGood(Interrupted(), 6, 3);
    assert [5][0] == 5;
  }
}
