/** Every solution in the dispatcher is a row of the table, and is pushed under the compiler it was
    submitted for. */
module ServerCompilers {
  import opened Options
  import opened ServerModel
  import opened ServerLocks
  import opened ServerRows

  // ---- What is known ----

  ghost predicate AllKnown(s: State, q: seq<SolutionId>) { forall x | x in q :: x in s.compilerOf }

  /** What a thread carries are rows of the table, and a push is under its row's compiler. */
  ghost predicate CarriesKnown(s: State, pc: PC) {
    match pc
    case Poll(poll) =>
      (match poll
       case Selected(ids) => AllKnown(s, ids)
       case Marking(ids, _) => AllKnown(s, ids)
       case Batch(pending) => AllKnown(s, pending)
       case _ => true)
    case Push(caller, x, k, _) =>
      && x in s.compilerOf && k == s.compilerOf[x]
      && (caller.ByPoller? ==> AllKnown(s, caller.pending))
    case _ => true
  }

  ghost predicate HoldsKnown(s: State, c: Client) {
    AllKnown(s, c.queue) && (c.checking.Some? ==> c.checking.value in s.compilerOf)
  }

  ghost predicate KnownOk(s: State) {
    && (forall o | o in s.objs :: HoldsKnown(s, s.objs[o]))
    && (forall t | t in s.threads :: CarriesKnown(s, s.threads[t]))
  }

  lemma KnownGives(s: State, t: Tid)
    requires KnownOk(s)
    ensures t in s.threads ==> CarriesKnown(s, s.threads[t])
    ensures HoldsKnown(s, Me(s, t))
  {
  }

  // ---- One step ----

  lemma EffectKnown(s: State, t: Tid, e: Effect, o: Tid)
    requires KnownOk(s) && o in ObjsAfter(s, t, e) && (e.Deliver? ==> e.x in s.compilerOf)
    ensures HoldsKnown(s, ObjsAfter(s, t, e)[o])
  {
    hide CarriesKnown;
    KnownGives(s, t);
    KnownGives(s, o);
  }

  lemma PollKnown(s: State, poll: PollStep, c: Choice)
    requires TableOk(s) && CarriesKnown(s, Poll(poll)) && ChoiceFits(s, Poll(poll), c)
    ensures CarriesKnown(s, DecidePoll(s, poll, c).0)
  {
    hide TableOk;
    if c.Extract? && poll.PollHold? {
      forall x | x in c.ids ensures x in s.compilerOf { CellAt(s, x); }
    }
  }

  lemma PushKnown(s: State, caller: Caller, x: SolutionId, k: Compiler, stage: Stage, c: Choice)
    requires CarriesKnown(s, Push(caller, x, k, stage))
    ensures var (pc, e) := DecidePush(s, caller, x, k, stage, c); CarriesKnown(s, pc) && (e.Deliver? ==> e.x == x)
  {
    hide Loaded, AllKnown;
  }

  lemma ClientKnown(s: State, t: Tid, pc: PC, c: Choice)
    requires HoldsKnown(s, Me(s, t)) && (pc.Entering? || pc.Running? || pc.Removing?)
    ensures CarriesKnown(s, Decide(s, t, pc, c).0) && !Decide(s, t, pc, c).1.Deliver?
  {
  }

  lemma DecidesKnown(s: State, t: Tid, c: Choice)
    requires TableOk(s) && KnownOk(s) && Enabled(s, Act(t, c))
    ensures var (pc, e) := Decide(s, t, s.threads[t], c); CarriesKnown(s, pc) && (e.Deliver? ==> e.x in s.compilerOf)
  {
    hide TableOk, HoldsKnown, CarriesKnown, KnownOk, DecidePoll, DecidePush, DecideRunning, DecideRemoving, Wants, Held;
    KnownGives(s, t);
    match s.threads[t]
    case Poll(poll) => PollKnown(s, poll, c); PollDelivers(s, poll, c);
    case Push(caller, x, k, stage) => PushKnown(s, caller, x, k, stage, c); Carries(s, s.threads[t]);
    case _ => ClientKnown(s, t, s.threads[t], c);
  }

  lemma PollDelivers(s: State, poll: PollStep, c: Choice)
    ensures !DecidePoll(s, poll, c).1.Deliver?
  {
  }

  lemma Carries(s: State, pc: PC)
    requires CarriesKnown(s, pc) && pc.Push?
    ensures pc.x in s.compilerOf && pc.k == s.compilerOf[pc.x]
  {
  }

  /** More rows do no harm. */
  lemma MoreRows(s: State, s': State, pc: PC, c: Client)
    requires forall x | x in s.compilerOf :: x in s'.compilerOf && s'.compilerOf[x] == s.compilerOf[x]
    ensures CarriesKnown(s, pc) ==> CarriesKnown(s', pc)
    ensures HoldsKnown(s, c) ==> HoldsKnown(s', c)
  {
  }

  lemma GotKnown(s: State, pc: PC)
    requires CarriesKnown(s, pc)
    ensures CarriesKnown(s, Got(s, pc))
  {
  }

  lemma RowsStay(s: State, l: Label)
    requires Enabled(s, l)
    ensures forall x | x in s.compilerOf :: x in Next(s, l).compilerOf && Next(s, l).compilerOf[x] == s.compilerOf[x]
  {
    hide Decide, ObjsAfter, StatusAfter, UndoAfter, LocAfter, ListsAfter, ClientsAfter, Wants, Held, ChoiceFits;
  }

  lemma StepKnown(s: State, l: Label)
    requires TableOk(s) && KnownOk(s) && Enabled(s, l)
    ensures KnownOk(Next(s, l))
  {
    hide TableOk, HoldsKnown, CarriesKnown, Decide, Got, ObjsAfter, StatusAfter, UndoAfter, LocAfter, ListsAfter, ClientsAfter, Wants, Held, ChoiceFits;
    var s' := Next(s, l);
    RowsStay(s, l);
    if l.Act? { DecidesKnown(s, l.t, l.c); }
    forall o | o in s'.objs ensures HoldsKnown(s', s'.objs[o]) {
      if l.Act? { EffectKnown(s, l.t, Decide(s, l.t, s.threads[l.t], l.c).1, o); }
      MoreRows(s, s', Poll(PollIdle), s'.objs[o]);
    }
    forall t | t in s'.threads ensures CarriesKnown(s', s'.threads[t]) {
      if l.Acquire? && l.t == t { GotKnown(s, s.threads[t]); }
      if l.Accept? && l.t == t { EnteringKnown(s, l.ks); }
      MoreRows(s, s', s'.threads[t], Client(0, [], None));
    }
  }

  lemma EnteringKnown(s: State, ks: seq<Compiler>)
    ensures CarriesKnown(s, Entering(ks, false))
  {
  }

  // ---- Runs ----

  lemma {:induction false} RunKnown(states: seq<State>, labels: seq<Label>, n: nat)
    requires Run(states, labels) && n < |states|
    ensures Inv(states[n]) && TableOk(states[n]) && KnownOk(states[n])
  {
    hide Inv, Enabled, Next, KnownOk;
    RunInv(states, labels, n);
    if n == 0 {
      InitKnown();
    } else {
      RunKnown(states, labels, n - 1);
      var s, l := states[n - 1], labels[n - 1];
      assert Enabled(s, l) && states[n - 1 + 1] == Next(s, l);
      PollerThere(s);
      StepTable(s, l);
      StepKnown(s, l);
    }
  }

  lemma InitKnown()
    ensures KnownOk(Init())
  {
  }

  /** In every state of every run: whoever pushes a solution pushes a row of the table, under the
      compiler of that row. */
  lemma PushesUnderItsCompiler(states: seq<State>, labels: seq<Label>, n: nat, t: Tid)
    requires Run(states, labels) && n < |states| && t in states[n].threads && states[n].threads[t].Push?
    ensures var s, pc := states[n], states[n].threads[t]; pc.x in s.compilerOf && pc.k == s.compilerOf[pc.x]
  {
    hide Run, Inv, KnownOk, CarriesKnown;
    RunKnown(states, labels, n);
    KnownGives(states[n], t);
    Carries(states[n], states[n].threads[t]);
  }

  /** The rows are those that were submitted, each once, and each for the compiler it was submitted for. */
  lemma {:induction false} RowsAsSubmitted(states: seq<State>, labels: seq<Label>, n: nat, x: SolutionId, k: Compiler)
    requires Run(states, labels) && n < |states|
    ensures x in states[n].compilerOf && states[n].compilerOf[x] == k <==> Submit(x, k) in labels[..n]
  {
    hide Enabled, Next;
    if n > 0 {
      RowsAsSubmitted(states, labels, n - 1, x, k);
      var s, l := states[n - 1], labels[n - 1];
      assert Enabled(s, l) && states[n - 1 + 1] == Next(s, l);
      assert labels[..n] == labels[..n - 1] + [l];
      RowsStep(s, l, x, k);
    }
  }

  lemma RowsStep(s: State, l: Label, x: SolutionId, k: Compiler)
    requires Enabled(s, l)
    ensures var s' := Next(s, l);
            x in s'.compilerOf && s'.compilerOf[x] == k <==> (x in s.compilerOf && s.compilerOf[x] == k) || l == Submit(x, k)
  {
    hide Decide, ObjsAfter, StatusAfter, UndoAfter, LocAfter, ListsAfter, ClientsAfter, Wants, Held, ChoiceFits;
  }
}
