/** Any history of a connection, as one row sees it: which of the writes to the row stand, and at which
    query its checking falls. Histories are sequences of queries with their outcomes, the poller's
    and those of other threads in the order they reach the server. */
module DbHistory {
  import opened Options
  import opened SolutionsDb

  datatype Event = Own(q: Query, o: Outcome) | Other(e: Foreign)

  predicate Begins(e: Event) { e == Own(Begin, Done) }

  predicate Commits(e: Event) { e == Own(Commit, Done) }

  /** The rollback succeeds, or a query fails and the server undoes the open transaction. */
  predicate Undoes(e: Event) { (e.Own? && (e.o.Undone? || (e.o.Done? && e.q.Rollback?))) || e == Other(Interrupt) }

  /** No transaction reaches across such an event. */
  predicate Closes(e: Event) { Begins(e) || Commits(e) || Undoes(e) }

  /** What an event writes to the part of the row one is interested in, if anything. */
  type Writer<!T> = Event -> Option<T>

  /** What begins, commits or undoes writes nothing. */
  ghost predicate IsWriter<T(!new)>(w: Writer<T>) { forall e :: Closes(e) ==> w(e).None? }

  predicate Writes<T>(e: Event, w: Writer<T>) { w(e).Some? }

  /** What is written to the checking of row x. */
  function Checks(x: Id): Writer<nat> {
    (e: Event) =>
      if e == Own(Update(x), Done) then Some(1)
      else if e.Other? && e.e.Post? && e.e.id == x then Some(2)
      else None
  }

  /** What is written to its verdict and response. */
  function Results(x: Id): Writer<(bool, string)> {
    (e: Event) => if e.Other? && e.e.Post? && e.e.id == x then Some((e.e.accepted, e.e.response)) else None
  }

  lemma AreWriters(x: Id)
    ensures IsWriter(Checks(x)) && IsWriter(Results(x))
  {
  }

  function StepView<T>(v: View<T>, e: Event, w: Writer<T>): View<T> {
    if Begins(e) then View(v.now, Some(v.now))
    else if Commits(e) then View(v.now, None)
    else if Undoes(e) then Back(v)
    else if w(e).Some? then View(w(e).value, v.back)
    else v
  }

  /** The row after the events, from v on. */
  function Fold<T>(v: View<T>, es: seq<Event>, w: Writer<T>): View<T> {
    if es == [] then v else StepView(Fold(v, es[..|es| - 1], w), es[|es| - 1], w)
  }

  lemma {:induction false} FoldAppend<T>(v: View<T>, a: seq<Event>, b: seq<Event>, w: Writer<T>)
    ensures Fold(v, a + b, w) == Fold(Fold(v, a, w), b, w)
  {
    if b == [] {
      assert a + b == a;
    } else {
      var n := |b| - 1;
      assert (a + b)[..|a + b| - 1] == a + b[..n];
      FoldAppend(v, a, b[..n], w);
    }
  }

  lemma FoldOne<T>(v: View<T>, es: seq<Event>, e: Event, w: Writer<T>)
    ensures Fold(v, es + [e], w) == StepView(Fold(v, es, w), e, w)
  {
    hide StepView;
    assert (es + [e])[..|es|] == es;
  }

  lemma StepCases<T(!new)>(v: View<T>, e: Event, w: Writer<T>)
    requires IsWriter(w)
    ensures Begins(e) ==> StepView(v, e, w) == View(v.now, Some(v.now))
    ensures Commits(e) ==> StepView(v, e, w) == View(v.now, None)
    ensures Undoes(e) ==> StepView(v, e, w) == Back(v)
    ensures Writes(e, w) ==> StepView(v, e, w).back == v.back && w(e) == Some(StepView(v, e, w).now) && !Closes(e)
    ensures !Closes(e) && !Writes(e, w) ==> StepView(v, e, w) == v
  {
  }

  // ---- Transactions ----

  /** Event p is inside the transaction begun at b. */
  ghost predicate BegunAt(es: seq<Event>, b: nat, p: nat)
    requires p <= |es|
  {
    b < p && Begins(es[b]) && forall j | b < j < p :: !Closes(es[j])
  }

  /** Event p is inside the transaction that was open at the start. */
  ghost predicate OpenFromStart<T(!new)>(v: View<T>, es: seq<Event>, p: nat)
    requires p <= |es|
  {
    v.back.Some? && forall j | 0 <= j < p :: !Closes(es[j])
  }

  ghost predicate OpenAt<T(!new)>(v: View<T>, es: seq<Event>, p: nat)
    requires p <= |es|
  {
    OpenFromStart(v, es, p) || exists b: nat :: BegunAt(es, b, p)
  }

  /** What undoing would restore is what the row was when the transaction began. */
  lemma {:induction false} BackIsBegin<T(!new)>(v: View<T>, es: seq<Event>, w: Writer<T>, b: nat)
    requires IsWriter(w)
    requires BegunAt(es, b, |es|)
    ensures Fold(v, es, w).back == Some(Fold(v, es[..b], w).now)
  {
    hide StepView, Begins, Closes;
    var n := |es| - 1;
    StepCases(Fold(v, es[..n], w), es[n], w);
    if b < n {
      assert BegunAt(es[..n], b, n);
      assert es[..n][..b] == es[..b];
      BackIsBegin(v, es[..n], w, b);
      assert !Closes(es[n]);
    }
  }

  lemma {:induction false} BackIsStart<T(!new)>(v: View<T>, es: seq<Event>, w: Writer<T>)
    requires IsWriter(w)
    requires OpenFromStart(v, es, |es|)
    ensures Fold(v, es, w).back == v.back
  {
    hide StepView, Closes;
    if es != [] {
      var n := |es| - 1;
      BackIsStart(v, es[..n], w);
      StepCases(Fold(v, es[..n], w), es[n], w);
      assert !Closes(es[n]);
    }
  }

  /** A transaction is open exactly where one began, here or before the start, and has not been closed. */
  lemma {:induction false} OpenExactly<T(!new)>(v: View<T>, es: seq<Event>, w: Writer<T>)
    requires IsWriter(w)
    ensures Fold(v, es, w).back.Some? <==> OpenAt(v, es, |es|)
  {
    hide StepView, Begins, Commits, Undoes;
    if es != [] {
      var n := |es| - 1;
      var init, e := es[..n], es[n];
      OpenExactly(v, init, w);
      StepCases(Fold(v, init, w), e, w);
      if Begins(e) {
        assert BegunAt(es, n, |es|);
      } else if !Closes(e) {
        OpenGrows(v, es);
      } else {
        ClosedNow(v, es);
      }
    }
  }

  lemma OpenGrows<T(!new)>(v: View<T>, es: seq<Event>)
    requires es != [] && !Closes(es[|es| - 1])
    ensures OpenAt(v, es, |es|) <==> OpenAt(v, es[..|es| - 1], |es| - 1)
  {
    hide Begins, Closes;
    var n := |es| - 1;
    var init := es[..n];
    if b: nat :| BegunAt(init, b, n) { assert BegunAt(es, b, |es|); }
    if b: nat :| BegunAt(es, b, |es|) {
      ClosesIfBegins(es[n]);
      assert b != n;
      assert BegunAt(init, b, n);
    }
  }

  lemma ClosesIfBegins(e: Event)
    ensures Begins(e) ==> Closes(e) && !Undoes(e)
  {
  }

  lemma WritesNot<T(!new)>(e: Event, w: Writer<T>)
    requires IsWriter(w)
    ensures Writes(e, w) ==> !Closes(e)
  {
  }

  lemma ClosedNow<T(!new)>(v: View<T>, es: seq<Event>)
    requires es != [] && Closes(es[|es| - 1]) && !Begins(es[|es| - 1])
    ensures !OpenAt(v, es, |es|)
  {
    hide Begins, Closes;
  }

  // ---- Which writes stand ----

  /** The transaction in which event p falls is undone. */
  ghost predicate TakenBack<T(!new)>(v: View<T>, es: seq<Event>, p: nat)
    requires p < |es|
  {
    OpenAt(v, es, p) && exists r: nat :: UndoneAt(es, p, r)
  }

  ghost predicate UndoneAt(es: seq<Event>, p: nat, r: nat) {
    p < r < |es| && Undoes(es[r]) && forall j | p < j < r :: !Closes(es[j])
  }

  /** A write to x that is not taken back. */
  ghost predicate Stands<T(!new)>(v: View<T>, es: seq<Event>, p: nat, w: Writer<T>)
    requires p < |es|
  {
    Writes(es[p], w) && !TakenBack(v, es, p)
  }

  ghost predicate LastStanding<T(!new)>(v: View<T>, es: seq<Event>, p: nat, w: Writer<T>) {
    p < |es| && Stands(v, es, p, w) && forall q: nat | p < q < |es| :: !Stands(v, es, q, w)
  }

  ghost predicate NoneStands<T(!new)>(v: View<T>, es: seq<Event>, w: Writer<T>) { forall q: nat | q < |es| :: !Stands(v, es, q, w) }

  /** The transaction that was open at the start is undone. */
  ghost predicate StartUndone<T(!new)>(v: View<T>, es: seq<Event>) {
    v.back.Some? && exists r: nat :: r < |es| && Undoes(es[r]) && forall j | 0 <= j < r :: !Closes(es[j])
  }

  ghost function StartValue<T(!new)>(v: View<T>, es: seq<Event>): T { if StartUndone(v, es) then v.back.value else v.now }

  /** now is what the last write that stands wrote, or what the row was at the start if none does. */
  ghost predicate Gives<T(!new)>(v: View<T>, es: seq<Event>, w: Writer<T>, now: T) {
    || (exists p: nat :: LastStanding(v, es, p, w) && w(es[p]) == Some(now))
    || (NoneStands(v, es, w) && now == StartValue(v, es))
  }

  // ---- One more event ----

  lemma PrefixOpen<T(!new)>(v: View<T>, es: seq<Event>, n: nat, p: nat)
    requires p <= n <= |es|
    ensures OpenAt(v, es[..n], p) <==> OpenAt(v, es, p)
  {
    hide Begins, Closes;
    if b: nat :| BegunAt(es[..n], b, p) { assert BegunAt(es, b, p); }
    if b: nat :| BegunAt(es, b, p) { assert BegunAt(es[..n], b, p); }
  }

  /** Before the last event nothing changes, unless it undoes the transaction that p falls in. */
  lemma TakenBackGrows<T(!new)>(v: View<T>, es: seq<Event>, p: nat)
    requires p + 1 < |es|
    ensures var n := |es| - 1;
            TakenBack(v, es, p) <==> TakenBack(v, es[..n], p) || (OpenAt(v, es, p) && UndoneAt(es, p, n))
  {
    hide Begins, Closes, Undoes, OpenAt;
    var n := |es| - 1;
    PrefixOpen(v, es, n, p);
    if r: nat :| UndoneAt(es[..n], p, r) { assert UndoneAt(es, p, r); }
    if r: nat :| UndoneAt(es, p, r) {
      if r < n { assert UndoneAt(es[..n], p, r); }
    }
  }

  lemma LastNotTakenBack<T(!new)>(v: View<T>, es: seq<Event>)
    requires es != []
    ensures !TakenBack(v, es, |es| - 1)
  {
  }

  /** An event that undoes nothing leaves standing what stood. */
  lemma StandsSame<T(!new)>(v: View<T>, es: seq<Event>, w: Writer<T>)
    requires IsWriter(w)
    requires es != [] && (!Undoes(es[|es| - 1]) || !OpenAt(v, es, |es| - 1))
    ensures forall p: nat | p < |es| - 1 :: Stands(v, es, p, w) <==> Stands(v, es[..|es| - 1], p, w)
    ensures StartValue(v, es) == StartValue(v, es[..|es| - 1])
  {
    hide Begins, Closes, Undoes, OpenAt, Writes;
    var n := |es| - 1;
    forall p: nat | p < n ensures Stands(v, es, p, w) <==> Stands(v, es[..n], p, w) {
      TakenBackGrows(v, es, p);
      if OpenAt(v, es, p) && UndoneAt(es, p, n) && Writes(es[p], w) {
        WritesNot(es[p], w);
        OpenThrough(v, es, p, n);
      }
    }
    StartSame(v, es);
  }

  lemma OpenThrough<T(!new)>(v: View<T>, es: seq<Event>, p: nat, n: nat)
    requires p < n <= |es| && OpenAt(v, es, p) && !Closes(es[p]) && forall j | p < j < n :: !Closes(es[j])
    ensures OpenAt(v, es, n)
  {
    hide Begins, Closes;
    if b: nat :| BegunAt(es, b, p) { assert BegunAt(es, b, n); }
  }

  lemma StartSame<T(!new)>(v: View<T>, es: seq<Event>)
    requires es != [] && (!Undoes(es[|es| - 1]) || !OpenAt(v, es, |es| - 1))
    ensures StartValue(v, es) == StartValue(v, es[..|es| - 1])
  {
    hide Begins, Closes, Undoes;
    var n := |es| - 1;
    if StartUndone(v, es) {
      var r: nat :| r < |es| && Undoes(es[r]) && forall j | 0 <= j < r :: !Closes(es[j]);
      assert OpenFromStart(v, es, r);
      assert r < n ==> Undoes(es[..n][r]);
    }
    if StartUndone(v, es[..n]) {
      var r: nat :| r < n && Undoes(es[..n][r]) && forall j | 0 <= j < r :: !Closes(es[..n][j]);
      assert Undoes(es[r]) && forall j | 0 <= j < r :: !Closes(es[..n][j]) && es[j] == es[..n][j];
    }
  }

  // ---- An event that undoes the transaction begun at b ----

  lemma UndoneBefore(es: seq<Event>, b: nat, p: nat, r: nat)
    requires p < b < |es| && Begins(es[b]) && UndoneAt(es, p, r)
    ensures r < b && UndoneAt(es[..b], p, r)
  {
    hide Begins, Closes, Undoes;
    ClosesIfBegins(es[b]);
  }

  lemma StandsBefore<T(!new)>(v: View<T>, es: seq<Event>, b: nat, p: nat, w: Writer<T>)
    requires p < b < |es| && Begins(es[b])
    ensures Stands(v, es, p, w) <==> Stands(v, es[..b], p, w)
  {
    hide Begins, Closes, Undoes, OpenAt, Writes;
    PrefixOpen(v, es, b, p);
    if r: nat :| UndoneAt(es, p, r) { UndoneBefore(es, b, p, r); }
    if r: nat :| UndoneAt(es[..b], p, r) { assert UndoneAt(es, p, r); }
  }

  lemma StandsInside<T(!new)>(v: View<T>, es: seq<Event>, b: nat, p: nat, w: Writer<T>)
    requires IsWriter(w)
    requires es != [] && BegunAt(es, b, |es| - 1) && Undoes(es[|es| - 1]) && b <= p < |es|
    ensures !Stands(v, es, p, w)
  {
    hide Begins, Undoes, Writes, Closes;
    var n := |es| - 1;
    ClosesIfBegins(es[p]);
    WritesNot(es[p], w);
    UndoesCloses(es[n]);
    if b < p < n {
      assert BegunAt(es, b, p);
      assert UndoneAt(es, p, n);
    }
  }

  lemma UndoesCloses(e: Event)
    ensures Undoes(e) ==> Closes(e)
  {
  }

  lemma StartBefore<T(!new)>(v: View<T>, es: seq<Event>, b: nat)
    requires b < |es| && Begins(es[b])
    ensures StartValue(v, es) == StartValue(v, es[..b])
  {
    hide Begins, Closes, Undoes;
    ClosesIfBegins(es[b]);
    if r: nat :| r < |es| && Undoes(es[r]) && forall j | 0 <= j < r :: !Closes(es[j]) {
      assert r < b;
      assert Undoes(es[..b][r]) && forall j | 0 <= j < r :: es[..b][j] == es[j];
    }
    if r: nat :| r < b && Undoes(es[..b][r]) && forall j | 0 <= j < r :: !Closes(es[..b][j]) {
      assert Undoes(es[r]) && forall j | 0 <= j < r :: !Closes(es[..b][j]) && es[..b][j] == es[j];
    }
  }

  lemma GivesUndone<T(!new)>(v: View<T>, es: seq<Event>, w: Writer<T>, b: nat, now: T)
    requires IsWriter(w)
    requires es != [] && BegunAt(es, b, |es| - 1) && Undoes(es[|es| - 1]) && Gives(v, es[..b], w, now)
    ensures Gives(v, es, w, now)
  {
    hide Begins, Undoes, Closes, Stands, Writes, StartValue;
    forall p: nat | p < |es| ensures Stands(v, es, p, w) <==> p < b && Stands(v, es[..b], p, w) {
      if p < b { StandsBefore(v, es, b, p, w); } else { StandsInside(v, es, b, p, w); }
    }
    StartBefore(v, es, b);
    if p: nat :| LastStanding(v, es[..b], p, w) && w(es[..b][p]) == Some(now) { assert LastStanding(v, es, p, w); }
  }

  lemma GivesStart<T(!new)>(v: View<T>, es: seq<Event>, w: Writer<T>)
    requires IsWriter(w)
    requires es != [] && OpenFromStart(v, es, |es| - 1) && Undoes(es[|es| - 1])
    ensures Gives(v, es, w, v.back.value)
  {
    hide Begins, Undoes, Closes, Writes;
    var n := |es| - 1;
    UndoesCloses(es[n]);
    forall p: nat | p < |es| ensures !Stands(v, es, p, w) {
      WritesNot(es[p], w);
      if p < n {
        assert OpenFromStart(v, es, p);
        assert UndoneAt(es, p, n);
      }
    }
    assert StartUndone(v, es);
  }

  lemma GivesSame<T(!new)>(v: View<T>, es: seq<Event>, w: Writer<T>, now: T)
    requires IsWriter(w)
    requires es != [] && (!Undoes(es[|es| - 1]) || !OpenAt(v, es, |es| - 1)) && !Writes(es[|es| - 1], w)
    requires Gives(v, es[..|es| - 1], w, now)
    ensures Gives(v, es, w, now)
  {
    hide Begins, Undoes, Closes, StartValue, TakenBack, OpenAt;
    StandsSame(v, es, w);
    var n := |es| - 1;
    if p: nat :| LastStanding(v, es[..n], p, w) && w(es[..n][p]) == Some(now) { assert LastStanding(v, es, p, w); }
  }

  lemma GivesWrite<T(!new)>(v: View<T>, es: seq<Event>, w: Writer<T>)
    requires es != [] && Writes(es[|es| - 1], w)
    ensures w(es[|es| - 1]).Some? && Gives(v, es, w, w(es[|es| - 1]).value)
  {
    hide TakenBack;
    LastNotTakenBack(v, es);
    assert LastStanding(v, es, |es| - 1, w);
  }

  /** The exact value of a row after any history: what the last write that is not taken back wrote, or
      what it was at the start. */
  lemma {:induction false} ValueExactly<T(!new)>(v: View<T>, es: seq<Event>, w: Writer<T>)
    requires IsWriter(w)
    ensures Gives(v, es, w, Fold(v, es, w).now)
    decreases |es|, 1
  {
    hide Begins, Undoes, Closes, Writes, Gives, OpenAt, StepView;
    if es == [] {
      NothingGiven(v, w);
    } else {
      var n := |es| - 1;
      var before, e := Fold(v, es[..n], w), es[n];
      StepCases(before, e, w);
      OpenExactly(v, es[..n], w);
      PrefixOpen(v, es, n, n);
      if Writes(e, w) {
        GivesWrite(v, es, w);
      } else if Undoes(e) && OpenAt(v, es, n) {
        UndoneValue(v, es, w);
      } else {
        ValueExactly(v, es[..n], w);
        KeptValue(before, e, w);
        GivesSame(v, es, w, before.now);
      }
    }
  }

  lemma NothingGiven<T(!new)>(v: View<T>, w: Writer<T>)
    ensures Gives(v, [], w, v.now)
  {
  }

  lemma KeptValue<T(!new)>(v: View<T>, e: Event, w: Writer<T>)
    requires IsWriter(w)
    requires !Writes(e, w) && (Undoes(e) ==> v.back.None?)
    ensures StepView(v, e, w).now == v.now
  {
    StepCases(v, e, w);
  }

  lemma {:induction false} UndoneValue<T(!new)>(v: View<T>, es: seq<Event>, w: Writer<T>)
    requires IsWriter(w)
    requires es != [] && Undoes(es[|es| - 1]) && OpenAt(v, es, |es| - 1)
    ensures Gives(v, es, w, Fold(v, es, w).now)
    decreases |es|, 0
  {
    hide Begins, Undoes, Closes, Writes, Gives, StepView;
    var n := |es| - 1;
    var init := es[..n];
    StepCases(Fold(v, init, w), es[n], w);
    if b: nat :| BegunAt(es, b, n) {
      assert BegunAt(init, b, n) && init[..b] == es[..b];
      BackIsBegin(v, init, w, b);
      ValueExactly(v, es[..b], w);
      GivesUndone(v, es, w, b, Fold(v, es[..b], w).now);
    } else {
      assert OpenFromStart(v, es, n) && OpenFromStart(v, init, n);
      BackIsStart(v, init, w);
      GivesStart(v, es, w);
    }
  }

  // ---- Where checking falls ----

  /** The last write to x before event i is the one at p. */
  ghost predicate LastWrite<T(!new)>(es: seq<Event>, w: Writer<T>, p: nat, i: nat)
    requires i <= |es|
  {
    p < i && Writes(es[p], w) && forall q | p < q < i :: !Writes(es[q], w)
  }

  /** Inside the transaction begun at b a row is what it was then, or what was last written since. */
  lemma {:induction false} ValueInside<T(!new)>(v: View<T>, es: seq<Event>, w: Writer<T>, b: nat)
    requires IsWriter(w)
    requires BegunAt(es, b, |es|)
    ensures var now := Fold(v, es, w).now;
            || (exists p: nat :: b < p < |es| && LastWrite(es, w, p, |es|) && w(es[p]) == Some(now))
            || ((forall q | b < q < |es| :: !Writes(es[q], w)) && now == Fold(v, es[..b], w).now)
  {
    hide Begins, Closes, Writes, StepView, LastWrite;
    var n := |es| - 1;
    StepCases(Fold(v, es[..n], w), es[n], w);
    if b < n {
      var init := es[..n];
      assert BegunAt(init, b, n) && init[..b] == es[..b] && !Closes(es[n]);
      ValueInside(v, init, w, b);
      forall p: nat | p < n ensures LastWrite(es, w, p, |es|) <==> LastWrite(init, w, p, n) && !Writes(es[n], w) { LastWriteGrows(es, w, p); }
      LastWriteGrows(es, w, n);
    }
  }

  lemma LastWriteGrows<T(!new)>(es: seq<Event>, w: Writer<T>, p: nat)
    requires p < |es|
    ensures var n := |es| - 1;
            && (p < n ==> (LastWrite(es, w, p, |es|) <==> LastWrite(es[..n], w, p, n) && !Writes(es[n], w)))
            && (p == n ==> (LastWrite(es, w, p, |es|) <==> Writes(es[n], w)))
  {
    hide Writes;
  }

  /** Query i undoes a transaction in which the row was last written to something higher than it was
      when the transaction began. */
  ghost predicate UndoesARise(v: View<nat>, es: seq<Event>, x: Id, i: nat)
    requires i < |es|
  {
    && Undoes(es[i])
    && exists b: nat, p: nat :: BegunAt(es, b, i) && b < p && LastWrite(es, Checks(x), p, i) && WrittenAt(es, p) > Fold(v, es[..b], Checks(x)).now
  }

  /** The checking that a write stores. */
  function Written(e: Event): nat { if e.Own? then 1 else 2 }

  function WrittenAt(es: seq<Event>, p: nat): nat { if p < |es| then Written(es[p]) else 0 }

  lemma {:induction false} AtMostTwo(v: View<nat>, es: seq<Event>, x: Id)
    requires v.now <= 2 && (v.back.Some? ==> v.back.value <= 2)
    ensures Fold(v, es, Checks(x)).now <= 2 && (Fold(v, es, Checks(x)).back.Some? ==> Fold(v, es, Checks(x)).back.value <= 2)
  {
    if es != [] { AtMostTwo(v, es[..|es| - 1], x); }
  }

  /** Over any history of a connection: a row's checking falls at event i if and only if that event
      undoes a transaction in which the row was raised, or writes less than the row holds, which only
      marking a row that was finished after the select does. */
  lemma FallsExactly(v: View<nat>, es: seq<Event>, x: Id, i: nat)
    requires v.back.None? && i < |es|
    ensures Fold(v, es[..i + 1], Checks(x)).now < Fold(v, es[..i], Checks(x)).now <==>
              UndoesARise(v, es, x, i) || (Writes(es[i], Checks(x)) && Written(es[i]) < Fold(v, es[..i], Checks(x)).now)
    ensures v.now <= 2 && Writes(es[i], Checks(x)) && Written(es[i]) < Fold(v, es[..i], Checks(x)).now ==>
              es[i] == Own(Update(x), Done) && Fold(v, es[..i], Checks(x)).now == 2
  {
    hide Begins, Undoes, Commits, StepView, Writes, LastWrite, Fold, OpenAt, UndoesARise, Checks, IsWriter;
    AreWriters(x);
    var init, e := es[..i], es[i];
    FoldStep(v, es, x, i);
    var before := Fold(v, init, Checks(x));
    StepCases(before, e, Checks(x));
    if v.now <= 2 { AtMostTwo(v, init, x); }
    OpenExactly(v, init, Checks(x));
    WriteCases(e, x);
    if Undoes(e) {
      PrefixOpen(v, es, i, i);
      if OpenAt(v, es, i) { OpenBegan(v, es, i); FallsInside(v, es, x, i); } else { NoRise(v, es, x, i); }
    } else {
      NotUndoing(v, es, x, i);
    }
  }

  lemma FoldStep(v: View<nat>, es: seq<Event>, x: Id, i: nat)
    requires i < |es|
    ensures Fold(v, es[..i + 1], Checks(x)) == StepView(Fold(v, es[..i], Checks(x)), es[i], Checks(x))
  {
    hide StepView;
    assert es[..i + 1][..i] == es[..i];
  }

  lemma OpenBegan(v: View<nat>, es: seq<Event>, i: nat)
    requires v.back.None? && i <= |es| && OpenAt(v, es, i)
    ensures exists b: nat :: BegunAt(es, b, i)
  {
  }

  lemma NoRise(v: View<nat>, es: seq<Event>, x: Id, i: nat)
    requires i < |es| && !OpenAt(v, es, i)
    ensures !UndoesARise(v, es, x, i)
  {
    hide Begins, Closes, Undoes, LastWrite;
  }

  lemma NotUndoing(v: View<nat>, es: seq<Event>, x: Id, i: nat)
    requires i < |es| && !Undoes(es[i])
    ensures !UndoesARise(v, es, x, i)
  {
  }

  /** Where a transaction is undone the row falls exactly if the transaction had raised it. */
  lemma FallsInside(v: View<nat>, es: seq<Event>, x: Id, i: nat)
    requires i < |es| && Undoes(es[i]) && exists b: nat :: BegunAt(es, b, i)
    ensures UndoesARise(v, es, x, i) <==> Back(Fold(v, es[..i], Checks(x))).now < Fold(v, es[..i], Checks(x)).now
  {
    hide Begins, Undoes, Closes, StepView, Fold, LastWrite;
    var now := Fold(v, es[..i], Checks(x)).now;
    forall b: nat | BegunAt(es, b, i)
      ensures Back(Fold(v, es[..i], Checks(x))).now == Fold(v, es[..b], Checks(x)).now
      ensures forall p: nat | b < p && LastWrite(es, Checks(x), p, i) :: now == WrittenAt(es, p)
      ensures now != Fold(v, es[..b], Checks(x)).now ==> exists p: nat :: b < p && LastWrite(es, Checks(x), p, i)
    {
      InsideWrites(v, es, x, b, i);
    }
  }

  lemma WriteCases(e: Event, x: Id)
    ensures Writes(e, Checks(x)) ==> Checks(x)(e) == Some(Written(e)) && (Written(e) == 2 || e == Own(Update(x), Done))
    ensures e == Own(Update(x), Done) ==> Writes(e, Checks(x)) && Written(e) == 1
    ensures Undoes(e) ==> !Writes(e, Checks(x))
  {
  }

  lemma LastWriteUnique(es: seq<Event>, x: Id, p: nat, q: nat, i: nat)
    requires i <= |es| && LastWrite(es, Checks(x), p, i) && LastWrite(es, Checks(x), q, i)
    ensures p == q
  {
    hide Writes;
  }

  lemma InsideWrites(v: View<nat>, es: seq<Event>, x: Id, b: nat, i: nat)
    requires i <= |es| && BegunAt(es, b, i)
    ensures Fold(v, es[..i], Checks(x)).back == Some(Fold(v, es[..b], Checks(x)).now)
    ensures forall p: nat | b < p && LastWrite(es, Checks(x), p, i) :: Fold(v, es[..i], Checks(x)).now == WrittenAt(es, p)
    ensures Fold(v, es[..i], Checks(x)).now != Fold(v, es[..b], Checks(x)).now ==> exists p: nat :: b < p && LastWrite(es, Checks(x), p, i)
  {
    hide Begins, Closes, Writes, StepView, Fold, Checks, IsWriter;
    AreWriters(x);
    var init := es[..i];
    assert init[..b] == es[..b] && BegunAt(init, b, i);
    BackIsBegin(v, init, Checks(x), b);
    ValueInside(v, init, Checks(x), b);
    forall p: nat | b < p && LastWrite(init, Checks(x), p, i)
      ensures LastWrite(es, Checks(x), p, i) && Checks(x)(init[p]) == Some(WrittenAt(es, p))
    {
      WriteCases(init[p], x);
    }
    forall p: nat | b < p && LastWrite(es, Checks(x), p, i) ensures Fold(v, init, Checks(x)).now == WrittenAt(es, p) {
      assert LastWrite(init, Checks(x), p, i);
      forall q: nat | LastWrite(init, Checks(x), q, i) ensures q == p { LastWriteUnique(init, x, p, q, i); }
    }
  }
}
