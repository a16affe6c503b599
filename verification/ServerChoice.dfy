/** The choice of push_solution among all the other threads: the scan holds clients_map_mutex and
    the list's mutex, so that clients register and leave behind its back only where it cannot
    see them. */
module ServerChoice {
  import opened Options
  import opened ServerModel
  import opened ServerLocks
  import opened ServerCompilers

  /** The client of entry i of the list of compiler k. */
  function Entry(s: State, k: Compiler, i: nat): Option<Tid> {
    if i < |ListFor(s, k)| && ListFor(s, k)[i] in s.clients then Some(s.clients[ListFor(s, k)[i]]) else None
  }

  function EntryBefore(s: State, k: Compiler, i: nat): Option<Tid> { if i == 0 then None else Entry(s, k, i - 1) }

  /** Where the scan stands: it looks at entry i, and the best client so far is that of the entry before. */
  ghost predicate ScanOk(s: State, t: Tid)
    requires t in s.threads
  {
    s.threads[t].Push? ==>
      var k := s.threads[t].k;
      match s.threads[t].stage
      case Find => true
      case WantClients => k in s.lists
      case WantList => k in s.lists
      case Scan(i, best) => k in s.lists && i <= |s.lists[k]| && best == EntryBefore(s, k, i)
      case WantCur(cur, i, best) => k in s.lists && i < |s.lists[k]| && Entry(s, k, i) == Some(cur) && best == EntryBefore(s, k, i)
      case HoldCur(cur, i, best) => k in s.lists && i < |s.lists[k]| && Entry(s, k, i) == Some(cur) && best == EntryBefore(s, k, i)
      case _ => true
  }

  ghost predicate ScansOk(s: State) { forall t | t in s.threads :: ScanOk(s, t) }

  // ---- What others can do to a scan ----

  /** clients_map is the same, and the list of k has at most grown at its end. */
  ghost predicate SameView(s: State, s': State, k: Compiler) {
    && s'.clients == s.clients
    && (k in s.lists ==> k in s'.lists && |s.lists[k]| <= |s'.lists[k]| && s'.lists[k][..|s.lists[k]|] == s.lists[k])
  }

  lemma SameEntry(s: State, s': State, k: Compiler, i: nat)
    requires SameView(s, s', k) && k in s.lists && i < |s.lists[k]|
    ensures Entry(s', k, i) == Entry(s, k, i)
  {
    assert s'.lists[k][i] == s'.lists[k][..|s.lists[k]|][i];
  }

  lemma ScanKept(s: State, s': State, t: Tid)
    requires t in s.threads && t in s'.threads && s'.threads[t] == s.threads[t] && ScanOk(s, t)
    requires s.threads[t].Push?
    requires s.threads[t].k in s.lists ==> s.threads[t].k in s'.lists
    requires ScanHeld(s, t) ==> SameView(s, s', s.threads[t].k)
    ensures ScanOk(s', t)
  {
    hide Entry;
    var k := s.threads[t].k;
    if ScanHeld(s, t) {
      var i := match s.threads[t].stage
        case Scan(i, _) => i
        case WantCur(_, i, _) => i
        case HoldCur(_, i, _) => i;
      if i < |s.lists[k]| { SameEntry(s, s', k, i); }
      if i > 0 { SameEntry(s, s', k, i - 1); }
    }
  }

  predicate ScanHeld(s: State, t: Tid)
    requires t in s.threads
  {
    s.threads[t].Push? && (s.threads[t].stage.Scan? || s.threads[t].stage.WantCur? || s.threads[t].stage.HoldCur?)
  }

  lemma ScannerHolds(s: State, t: Tid)
    requires t in s.threads && ScanHeld(s, t)
    ensures ClientsMap in Held(t, s.threads[t]) && ListOf(s.threads[t].k) in Held(t, s.threads[t])
  {
  }

  lemma WritersHold(s: State, u: Tid, c: Choice)
    requires u in s.threads && Wants(u, s.threads[u]).None?
    ensures var e := Decide(s, u, s.threads[u], c).1;
            && (e.AddClient? || e.DropClient? ==> ClientsMap in Held(u, s.threads[u]))
            && (e.Delist? ==> ListOf(e.k) in Held(u, s.threads[u]))
  {
    hide DecidePush, DecideRunning;
    match s.threads[u]
    case Entering(_, _) =>
    case Running(step) => RunningWriters(s, u, step, c);
    case Removing(_) =>
    case Poll(_) =>
    case Push(caller, x, k, stage) => PushWrites(s, caller, x, k, stage, c);
  }

  lemma RunningWriters(s: State, u: Tid, step: ClientStep, c: Choice)
    requires StepWants(u, step).None?
    ensures var e := DecideRunning(s, u, step, c).1;
            !e.AddClient? && (e.DropClient? ==> ClientsMap in StepHeld(u, step)) && (e.Delist? ==> ListOf(e.k) in StepHeld(u, step))
  {
  }

  lemma PushWrites(s: State, caller: Caller, x: SolutionId, k: Compiler, stage: Stage, c: Choice)
    ensures var e := DecidePush(s, caller, x, k, stage, c).1; e.Nothing? || e.MarkFailure? || e.Deliver?
  {
  }

  lemma EffectOnView(s: State, u: Tid, e: Effect, pc: PC, k: Compiler)
    ensures k in s.lists ==> k in Perform(s, u, e, pc).lists
    ensures !e.AddClient? && !e.DropClient? && !(e.Delist? && e.k == k) ==> SameView(s, Perform(s, u, e, pc), k)
  {
    hide LocAfter, StatusAfter, ObjsAfter, Without;
  }

  lemma PerformThreads(s: State, u: Tid, e: Effect, pc: PC)
    ensures Perform(s, u, e, pc).threads == s.threads[u := pc]
  {
  }

  lemma NoScan(s: State, t: Tid)
    requires t in s.threads && !s.threads[t].Push?
    ensures ScanOk(s, t)
  {
  }

  lemma OthersScan(s: State, u: Tid, c: Choice, t: Tid)
    requires Inv(s) && t in s.threads && ScanOk(s, t) && u != t && Enabled(s, Act(u, c))
    ensures var s' := Next(s, Act(u, c)); t in s'.threads && ScanOk(s', t)
  {
    hide IndexOk, TargetsOk, ThreadsOk, Decide, Held, Wants, Perform, SameView, ScanOk, ScanHeld;
    var (pc, e) := Decide(s, u, s.threads[u], c);
    PerformThreads(s, u, e, pc);
    if s.threads[t].Push? {
      EffectOnView(s, u, e, pc, s.threads[t].k);
      if ScanHeld(s, t) {
        ScannerHolds(s, t);
        WritersHold(s, u, c);
        assert Held(t, s.threads[t]) !! Held(u, s.threads[u]);
      }
      ScanKept(s, Perform(s, u, e, pc), t);
    } else {
      NoScan(Perform(s, u, e, pc), t);
    }
  }

  // ---- The scan's own steps ----

  lemma PushScan(s: State, t: Tid, caller: Caller, x: SolutionId, k: Compiler, stage: Stage, c: Choice)
    requires t in s.threads && s.threads[t] == Push(caller, x, k, stage) && ScanOk(s, t) && Indexed(s)
    requires StageWants(stage, k).None?
    ensures ScanOk(Next(s, Act(t, c)), t)
  {
    hide LocAfter, StatusAfter, ObjsAfter;
  }

  lemma StartsAtFind(s: State, t: Tid, c: Choice)
    requires t in s.threads && !s.threads[t].Push?
    ensures var pc := Decide(s, t, s.threads[t], c).0; pc.Push? ==> pc.stage.Find?
  {
  }

  lemma OwnScan(s: State, t: Tid, c: Choice)
    requires Inv(s) && t in s.threads && ScanOk(s, t) && Enabled(s, Act(t, c))
    ensures ScanOk(Next(s, Act(t, c)), t)
  {
    hide TargetsOk, ThreadsOk, MutexOk, ScanOk, Decide, Perform, DelistedOk;
    IndexGives(s, t);
    if s.threads[t].Push? {
      var pc := s.threads[t];
      PushScan(s, t, pc.caller, pc.x, pc.k, pc.stage, c);
    } else {
      StartsAtFind(s, t, c);
      var (pc, e) := Decide(s, t, s.threads[t], c);
      PerformThreads(s, t, e, pc);
      FindIsOk(Perform(s, t, e, pc), t);
    }
  }

  lemma FindIsOk(s: State, t: Tid)
    requires t in s.threads && (s.threads[t].Push? ==> s.threads[t].stage.Find?)
    ensures ScanOk(s, t)
  {
  }

  lemma LockScan(s: State, t: Tid, u: Tid)
    requires t in s.threads && u in s.threads && ScanOk(s, u) && Wants(t, s.threads[t]).Some?
    ensures ScanOk(Next(s, Acquire(t)), u)
  {
  }

  lemma StepScans(s: State, l: Label)
    requires Inv(s) && ScansOk(s) && Enabled(s, l)
    ensures ScansOk(Next(s, l))
  {
    hide Inv, ScanOk, Decide, Perform, Wants, Held, ChoiceFits;
    var s' := Next(s, l);
    forall t | t in s'.threads ensures ScanOk(s', t) {
      match l
      case Act(u, c) =>
        PerformThreads(s, u, Decide(s, u, s.threads[u], c).1, Decide(s, u, s.threads[u], c).0);
        if t == u { OwnScan(s, t, c); } else { OthersScan(s, u, c, t); }
      case Acquire(u) => LockScan(s, u, t);
      case Accept(u, ks) => if t == u { NoScan(s', t); } else { SameScan(s, s', t); }
      case Submit(_, _) => SameScan(s, s', t);
    }
  }

  lemma SameScan(s: State, s': State, t: Tid)
    requires t in s.threads && ScanOk(s, t) && t in s'.threads && s'.threads[t] == s.threads[t]
    requires s'.lists == s.lists && s'.clients == s.clients
    ensures ScanOk(s', t)
  {
  }

  lemma {:induction false} RunScans(states: seq<State>, labels: seq<Label>, n: nat)
    requires Run(states, labels) && n < |states|
    ensures Inv(states[n]) && ScansOk(states[n])
  {
    hide Inv, Enabled, Next, ScanOk;
    RunInv(states, labels, n);
    if n == 0 {
      NoScan(Init(), POLLER);
    } else {
      RunScans(states, labels, n - 1);
      assert Enabled(states[n - 1], labels[n - 1]) && states[n - 1 + 1] == Next(states[n - 1], labels[n - 1]);
      StepScans(states[n - 1], labels[n - 1]);
    }
  }

  // ---- What a scan has looked at ----

  /** The entry a scan has come to. */
  function At(pc: PC): Option<nat> {
    if !pc.Push? then None
    else
      match pc.stage
      case Scan(i, _) => Some(i)
      case WantCur(_, i, _) => Some(i)
      case HoldCur(_, i, _) => Some(i)
      case _ => None
  }

  /** Client o has solutions queued or one under check. */
  predicate Busy(s: State, o: Tid) { o in s.objs && (s.objs[o].queue != [] || s.objs[o].checking.Some?) }

  /** At step m thread t looked at entry j and found its client loaded. */
  ghost predicate FoundLoaded(s: State, l: Label, t: Tid, k: Compiler, j: nat) {
    && l.Act? && l.t == t && t in s.threads && s.threads[t].Push? && s.threads[t].k == k
    && s.threads[t].stage.HoldCur? && s.threads[t].stage.i == j
    && Busy(s, s.threads[t].stage.cur) && Entry(s, k, j) == Some(s.threads[t].stage.cur)
  }

  /** From state m on thread t has been in the same scan. */
  ghost predicate InScan(states: seq<State>, t: Tid, m: nat, n: nat)
    requires m <= n < |states|
  {
    forall p | m <= p <= n :: t in states[p].threads && At(states[p].threads[t]).Some?
  }

  ghost predicate LookedAt(states: seq<State>, labels: seq<Label>, t: Tid, k: Compiler, j: nat, n: nat)
    requires n < |states| == |labels| + 1
  {
    exists m: nat :: m < n && FoundLoaded(states[m], labels[m], t, k, j) && InScan(states, t, m, n)
  }

  lemma OthersAt(s: State, l: Label, t: Tid)
    requires t in s.threads && Enabled(s, l) && !(l.Act? && l.t == t) && !(l.Acquire? && l.t == t)
    ensures t in Next(s, l).threads && Next(s, l).threads[t] == s.threads[t]
  {
    hide Decide, LocAfter, StatusAfter, UndoAfter, ObjsAfter, ListsAfter, ClientsAfter;
  }

  /** How a scan advances from pc to pc'. */
  ghost predicate Advances(s: State, l: Label, t: Tid, pc: PC, pc': PC) {
    At(pc').Some? ==>
      var i := At(pc').value;
      || i == 0
      || (pc.Push? && pc'.k == pc.k && At(pc) == Some(i))
      || (pc.Push? && pc'.k == pc.k && At(pc) == Some(i - 1) && FoundLoaded(s, l, t, pc.k, i - 1))
  }

  lemma PushAdvances(s: State, t: Tid, c: Choice)
    requires t in s.threads && s.threads[t].Push? && ScanOk(s, t) && Indexed(s) && Wants(t, s.threads[t]).None?
    ensures var pc := s.threads[t];
            Advances(s, Act(t, c), t, pc, DecidePush(s, pc.caller, pc.x, pc.k, pc.stage, c).0)
  {
  }

  lemma LockAdvances(s: State, t: Tid)
    requires t in s.threads && Wants(t, s.threads[t]).Some?
    ensures Advances(s, Acquire(t), t, s.threads[t], Got(s, s.threads[t]))
  {
  }

  lemma AtStep(s: State, l: Label, t: Tid)
    requires t in s.threads && Enabled(s, l) && ScanOk(s, t) && Indexed(s)
    ensures t in Next(s, l).threads && Advances(s, l, t, s.threads[t], Next(s, l).threads[t])
  {
    hide LocAfter, StatusAfter, UndoAfter, ObjsAfter, ListsAfter, ClientsAfter, ScanOk, DecidePush, FoundLoaded, Wants, Got, Held;
    if l.Acquire? && l.t == t {
      LockAdvances(s, t);
    } else if l.Act? && l.t == t {
      if s.threads[t].Push? { PushAdvances(s, t, l.c); } else { StartsAtFind(s, t, l.c); }
    } else {
      OthersAt(s, l, t);
    }
  }

  lemma LookedStays(states: seq<State>, labels: seq<Label>, t: Tid, k: Compiler, j: nat, n: nat)
    requires n + 1 < |states| == |labels| + 1 && LookedAt(states, labels, t, k, j, n)
    requires t in states[n + 1].threads && At(states[n + 1].threads[t]).Some?
    ensures LookedAt(states, labels, t, k, j, n + 1)
  {
    var m: nat :| m < n && FoundLoaded(states[m], labels[m], t, k, j) && InScan(states, t, m, n);
    assert InScan(states, t, m, n + 1);
  }

  /** In every run: a scan that has come to entry i has looked at each entry before it and found its
      client loaded at that step. */
  lemma {:induction false} EarlierWereLoaded(states: seq<State>, labels: seq<Label>, n: nat, t: Tid, j: nat)
    requires Run(states, labels) && n < |states| && t in states[n].threads && At(states[n].threads[t]).Some?
    requires j < At(states[n].threads[t]).value
    ensures LookedAt(states, labels, t, states[n].threads[t].k, j, n)
    decreases n
  {
    hide Inv, Enabled, Next, ScanOk, FoundLoaded, LookedAt, At;
    if n == 0 {
      NoScanAtStart(t);
    } else {
      var s, l := states[n - 1], labels[n - 1];
      RunScans(states, labels, n - 1);
      assert Enabled(s, l) && states[n - 1 + 1] == Next(s, l);
      IndexedAt(s);
      if t !in s.threads {
        NewThread(s, l, t);
      } else {
        AtStep(s, l, t);
        if At(s.threads[t]).Some? && j < At(s.threads[t]).value {
          EarlierWereLoaded(states, labels, n - 1, t, j);
          LookedStays(states, labels, t, s.threads[t].k, j, n - 1);
        } else {
          JustLooked(states, labels, n, t, j);
        }
      }
    }
  }

  lemma JustLooked(states: seq<State>, labels: seq<Label>, n: nat, t: Tid, j: nat)
    requires 0 < n < |states| == |labels| + 1 && t in states[n].threads && At(states[n].threads[t]).Some?
    requires FoundLoaded(states[n - 1], labels[n - 1], t, states[n].threads[t].k, j)
    ensures LookedAt(states, labels, t, states[n].threads[t].k, j, n)
  {
    assert InScan(states, t, n - 1, n);
  }

  lemma NoScanAtStart(t: Tid)
    ensures t in Init().threads ==> At(Init().threads[t]).None?
  {
  }

  lemma NewThread(s: State, l: Label, t: Tid)
    requires Enabled(s, l) && t !in s.threads
    ensures t in Next(s, l).threads ==> At(Next(s, l).threads[t]).None?
  {
    hide Decide, LocAfter, StatusAfter, UndoAfter, ObjsAfter, ListsAfter, ClientsAfter;
  }

  // ---- The choice ----

  /** Thread t may settle on entry i of the list of k: every entry before it was found loaded in this
      scan, and its own client is idle now, or it is the last one and was found loaded too. */
  ghost predicate Chosen(states: seq<State>, labels: seq<Label>, n: nat, t: Tid, k: Compiler, i: nat, o: Tid)
    requires n < |states| == |labels| + 1
  {
    var s := states[n];
    && k in s.lists && i < |s.lists[k]| && Entry(s, k, i) == Some(o)
    && (forall j: nat | j < i :: LookedAt(states, labels, t, k, j, n))
    && (!Busy(s, o) || (i == |s.lists[k]| - 1 && LookedAt(states, labels, t, k, i, n)))
  }

  /** In every run, at the step at which thread t settles on client o: o is the client of the first
      entry that the scan found idle, or, all of them found loaded, of the last one; and a solution
      fails only at a step that finds the compiler unknown or its list empty. The compiler is that of
      the solution's row. */
  lemma ChoiceInRuns(states: seq<State>, labels: seq<Label>, n: nat, t: Tid, c: Choice)
    requires Run(states, labels) && n < |labels| && labels[n] == Act(t, c) && t in states[n].threads && states[n].threads[t].Push?
    ensures var s, pc := states[n], states[n].threads[t];
            var (pc', e) := Decide(s, t, pc, c);
            && pc.x in s.compilerOf
            && var k := s.compilerOf[pc.x];
            && (pc'.Push? && pc'.stage.WantChosen? ==> pc'.x == pc.x && exists i: nat :: Chosen(states, labels, n, t, k, i, pc'.stage.o))
            && (e.MarkFailure? ==> e.x == pc.x && (k !in s.lists || s.lists[k] == []))
  {
    hide Inv, Next, LookedAt, Decide, ScanOk;
    PushesUnderItsCompiler(states, labels, n, t);
    var s, pc := states[n], states[n].threads[t];
    RunScans(states, labels, n);
    assert Enabled(s, labels[n]);
    IndexedAt(s);
    ChoiceStep(s, t, c);
    var (pc', e) := Decide(s, t, pc, c);
    if pc'.Push? && pc'.stage.WantChosen? {
      var upto := At(pc).value;
      forall j: nat | j < upto ensures LookedAt(states, labels, t, pc.k, j, n) { EarlierWereLoaded(states, labels, n, t, j); }
      if pc.stage.HoldCur? {
        assert Chosen(states, labels, n, t, pc.k, upto, pc'.stage.o);
      } else {
        assert Chosen(states, labels, n, t, pc.k, upto - 1, pc'.stage.o);
      }
    }
  }

  lemma IndexedAt(s: State)
    requires Inv(s)
    ensures Indexed(s)
  {
    hide ThreadsOk, MutexOk, TargetsOk;
  }

  lemma ChoiceStep(s: State, t: Tid, c: Choice)
    requires t in s.threads && s.threads[t].Push? && ScanOk(s, t) && Indexed(s) && Enabled(s, Act(t, c))
    ensures var pc := s.threads[t];
            var (pc', e) := Decide(s, t, pc, c);
            && (pc'.Push? && pc'.stage.WantChosen? ==>
                  && pc.k in s.lists
                  && if pc.stage.HoldCur? then
                       var i := pc.stage.i; i < |s.lists[pc.k]| && Entry(s, pc.k, i) == Some(pc'.stage.o) && !Busy(s, pc'.stage.o)
                     else
                       pc.stage.Scan? && 0 < pc.stage.i == |s.lists[pc.k]| && Entry(s, pc.k, pc.stage.i - 1) == Some(pc'.stage.o))
            && (e.MarkFailure? ==> e.x == pc.x && (pc.k !in s.lists || s.lists[pc.k] == []))
            && (pc'.Push? ==> pc'.x == pc.x)
  {
    var pc := s.threads[t];
    match pc.stage
    case Scan(i, best) =>
      if i == |s.lists[pc.k]| && i > 0 { assert s.lists[pc.k][i - 1] in s.clients; }
    case HoldCur(cur, i, _) =>
    case Find =>
    case HoldChosen(_) =>
  }

  /** A removal settles only on other clients, in clients_map and on the list of the row's compiler. */
  lemma RemoverSettles(states: seq<State>, labels: seq<Label>, n: nat, t: Tid, c: Choice)
    requires Run(states, labels) && n < |labels| && labels[n] == Act(t, c) && t in states[n].threads
    requires states[n].threads[t].Push? && states[n].threads[t].caller.ByRemover?
    ensures var s, pc := states[n], states[n].threads[t];
            var pc' := Decide(s, t, pc, c).0;
            pc'.Push? && pc'.stage.WantChosen? ==>
              && pc.x in s.compilerOf && pc'.stage.o != t
              && exists id :: id in ListFor(s, s.compilerOf[pc.x]) && id in s.clients && s.clients[id] == pc'.stage.o
  {
    hide Next, LookedAt, Decide, Enabled, Inv;
    ChoiceInRuns(states, labels, n, t, c);
    RunInv(states, labels, n);
    var s, pc := states[n], states[n].threads[t];
    var pc' := Decide(s, t, pc, c).0;
    if pc'.Push? && pc'.stage.WantChosen? {
      var k := s.compilerOf[pc.x];
      var i: nat :| Chosen(states, labels, n, t, k, i, pc'.stage.o);
      assert ListFor(s, k)[i] in ListFor(s, k);
      RemovedNotListed(s, t, ListFor(s, k)[i]);
    }
  }

  lemma RemovedNotListed(s: State, t: Tid, id: ClientId)
    requires Inv(s) && t in s.threads && ClassOf(s.threads[t]).Removed? && id in s.clients
    ensures s.clients[id] != t
  {
    hide MutexOk, IndexOk, TargetsOk;
  }

  /** A push that waits for the chosen client's mutex, or has it, settled on that client before. */
  ghost predicate SettledAt(states: seq<State>, labels: seq<Label>, n: nat, t: Tid, pc: PC)
    requires n < |labels| < |states| && pc.Push? && (pc.stage.WantChosen? || pc.stage.HoldChosen?)
  {
    && labels[n].Act? && labels[n].t == t && t in states[n].threads && states[n].threads[t].Push?
    && Decide(states[n], t, states[n].threads[t], labels[n].c).0 == Push(pc.caller, pc.x, pc.k, WantChosen(pc.stage.o))
    && states[n].threads[t].caller == pc.caller && states[n].threads[t].k == pc.k && states[n].threads[t].x == pc.x
  }

  /** Where a thread that has settled was one step before. */
  lemma SettledStep(s: State, l: Label, t: Tid)
    requires Enabled(s, l) && t in Next(s, l).threads && Next(s, l).threads[t].Push?
    requires var stage := Next(s, l).threads[t].stage; stage.WantChosen? || stage.HoldChosen?
    ensures var pc := Next(s, l).threads[t];
            && t in s.threads && s.threads[t].Push? && s.threads[t].caller == pc.caller && s.threads[t].k == pc.k && s.threads[t].x == pc.x
            && (|| (l.Act? && l.t == t && Decide(s, t, s.threads[t], l.c).0 == Push(pc.caller, pc.x, pc.k, WantChosen(pc.stage.o)))
                || s.threads[t].stage == WantChosen(pc.stage.o) || s.threads[t].stage == HoldChosen(pc.stage.o))
  {
    hide LocAfter, StatusAfter, UndoAfter, ListsAfter, ClientsAfter, ObjsAfter, Held, ChoiceFits;
    match l
    case Act(u, c) => if u == t { SettledAct(s, t, c); }
    case Acquire(u) =>
    case Submit(_, _) =>
    case Accept(_, _) =>
  }

  lemma SettledAct(s: State, t: Tid, c: Choice)
    requires t in s.threads && Wants(t, s.threads[t]).None?
    ensures var pc := Decide(s, t, s.threads[t], c).0;
            pc.Push? && (pc.stage.WantChosen? || pc.stage.HoldChosen?) ==>
              && s.threads[t].Push? && s.threads[t].caller == pc.caller && s.threads[t].k == pc.k && s.threads[t].x == pc.x
              && pc.stage.WantChosen?
  {
    hide Loaded;
    match s.threads[t]
    case Entering(_, _) =>
    case Running(_) =>
    case Removing(_) =>
    case Poll(_) =>
    case Push(_, _, _, stage) =>
  }

  lemma {:induction false} SettledBefore(states: seq<State>, labels: seq<Label>, m: nat, t: Tid) returns (n: nat)
    requires Run(states, labels) && m < |states| && t in states[m].threads && states[m].threads[t].Push?
    requires states[m].threads[t].stage.WantChosen? || states[m].threads[t].stage.HoldChosen?
    ensures n < m && SettledAt(states, labels, n, t, states[m].threads[t])
  {
    hide Enabled, Next, Decide;
    assert m > 0;
    var s, l := states[m - 1], labels[m - 1];
    assert Enabled(s, l) && states[m - 1 + 1] == Next(s, l);
    SettledStep(s, l, t);
    n := m - 1;
    if !SettledAt(states, labels, n, t, states[m].threads[t]) { n := SettledBefore(states, labels, m - 1, t); }
  }

  /** In every run: a solution is delivered to a client that was in clients_map and on the list of the
      compiler of its row when the push settled on it. */
  lemma PushDelivers(states: seq<State>, labels: seq<Label>, m: nat, t: Tid, o: Tid) returns (n: nat, i: nat)
    requires Run(states, labels) && m < |states| && t in states[m].threads
    requires states[m].threads[t].Push? && states[m].threads[t].stage == HoldChosen(o)
    ensures n < m && SettledAt(states, labels, n, t, states[m].threads[t])
    ensures var s, x := states[n], states[m].threads[t].x;
            x in s.compilerOf && Chosen(states, labels, n, t, s.compilerOf[x], i, o)
  {
    hide Next, Decide, Enabled, Chosen;
    n := SettledBefore(states, labels, m, t);
    ChoiceInRuns(states, labels, n, t, labels[n].c);
    var s := states[n];
    i :| Chosen(states, labels, n, t, s.compilerOf[states[m].threads[t].x], i, o);
  }

  /** In every run: what a removal delivers goes to another client, which was in clients_map and on the
      list of the compiler of the solution's row, after the removed one had left both, when the push
      settled on it. */
  lemma RemoverDelivers(states: seq<State>, labels: seq<Label>, m: nat, t: Tid, c: Choice, o: Tid) returns (n: nat, id: ClientId)
    requires Run(states, labels) && m < |labels| && labels[m] == Act(t, c) && t in states[m].threads
    requires states[m].threads[t].Push? && states[m].threads[t].caller.ByRemover? && states[m].threads[t].stage == HoldChosen(o)
    ensures n < m && o != t && SettledAt(states, labels, n, t, states[m].threads[t])
    ensures var s, x := states[n], states[m].threads[t].x;
            x in s.compilerOf && id in ListFor(s, s.compilerOf[x]) && id in s.clients && s.clients[id] == o
    ensures var s := states[n]; t in s.objs && forall i | i in s.clients :: s.clients[i] != t
  {
    hide Next, Decide, Enabled, Inv;
    n := SettledBefore(states, labels, m, t);
    RemoverSettles(states, labels, n, t, labels[n].c);
    var s := states[n];
    id :| id in ListFor(s, s.compilerOf[states[m].threads[t].x]) && id in s.clients && s.clients[id] == o;
    RunInv(states, labels, n);
    RemoverLeft(s, t);
  }

  lemma RemoverLeft(s: State, t: Tid)
    requires Inv(s) && t in s.threads && ClassOf(s.threads[t]).Removed?
    ensures t in s.objs && forall i | i in s.clients :: s.clients[i] != t
  {
    hide IndexOk, MutexOk, TargetsOk;
    ThreadsGive(s, t);
    forall i | i in s.clients ensures s.clients[i] != t { RemovedNotListed(s, t, i); }
  }
}
