/** What registration does: a client is on the list of every compiler it named in its handshake, as
    often as it named it, from the end of its registration to the start of its removal, and every list
    is in the order of the registrations. */
module ServerRegistration {
  import opened Options
  import opened ServerModel
  import opened ServerLocks

  /** How often the client of thread t is on the list of compiler k. */
  ghost function TimesOn(s: State, t: Tid, k: Compiler): nat { multiset(ListFor(s, k))[Me(s, t).id] }

  /** The lists have the client of thread t as often as `named` has the compiler. */
  ghost predicate OnLists(s: State, t: Tid, named: seq<Compiler>) {
    forall k: Compiler :: TimesOn(s, t, k) == multiset(named)[k]
  }

  /** The lists in todo still have it, the others no longer. */
  ghost predicate LeftLists(s: State, t: Tid, named: seq<Compiler>, todo: set<Compiler>) {
    forall k: Compiler :: TimesOn(s, t, k) == if k in todo then multiset(named)[k] else 0
  }

  /** Where the registration of thread t stands, whose handshake named ks. */
  ghost predicate Registered(s: State, t: Tid, ks: seq<Compiler>)
    requires t in s.threads
  {
    match s.threads[t]
    case Entering(named, _) => named == ks
    case Running(step) =>
      (match step
       case RegWantCompilers(named) => named == ks && OnLists(s, t, [])
       case RegCompilers(rest) => |rest| <= |ks| && rest == ks[|ks| - |rest|..] && OnLists(s, t, ks[..|ks| - |rest|])
       case RemCompilers(todo) => LeftLists(s, t, ks, todo)
       case RemWantList(_, todo) => LeftLists(s, t, ks, todo)
       case RemList(_, todo) => LeftLists(s, t, ks, todo)
       case RemWantClients => OnLists(s, t, [])
       case RemClients => OnLists(s, t, [])
       case _ => OnLists(s, t, ks))
    case _ => true
  }

  // ---- Steps of other threads ----

  lemma {:induction false} WithoutCount(l: seq<ClientId>, id: ClientId, other: ClientId)
    ensures multiset(Without(l, id))[other] == if other == id then 0 else multiset(l)[other]
  {
    if l != [] {
      WithoutCount(l[1..], id, other);
      assert l == [l[0]] + l[1..];
    }
  }

  /** An effect of a client with another id. */
  lemma OthersKeepTimes(s: State, u: Tid, e: Effect, id: ClientId, k: Compiler)
    requires (e.Enlist? || e.Delist?) ==> Me(s, u).id != id
    ensures multiset(if k in ListsAfter(s, u, e) then ListsAfter(s, u, e)[k] else [])[id] == multiset(ListFor(s, k))[id]
  {
    hide Without;
    match e
    case Enlist(j) => AppendCount(ListFor(s, j), Me(s, u).id, id);
    case Delist(j) => WithoutCount(ListFor(s, j), Me(s, u).id, id);
    case _ =>
  }

  lemma AppendCount(l: seq<ClientId>, id: ClientId, other: ClientId)
    ensures multiset(l + [id])[other] == multiset(l)[other] + if other == id then 1 else 0
  {
  }

  lemma Listers(s: State, u: Tid, c: Choice)
    requires u in s.threads
    ensures var e := Decide(s, u, s.threads[u], c).1; e.Enlist? || e.Delist? ==> ClassOf(s.threads[u]).Live?
  {
  }

  lemma LiveIdsDiffer(s: State, t: Tid, u: Tid)
    requires ThreadsOk(s) && t in s.threads && u in s.threads && t != u && ClassOf(s.threads[t]).Live? && ClassOf(s.threads[u]).Live?
    ensures Me(s, t).id != Me(s, u).id
  {
    ThreadsGive(s, t);
    ThreadsGive(s, u);
  }

  lemma OthersId(s: State, u: Tid, e: Effect, t: Tid)
    requires t != u && t in s.objs
    ensures t in ObjsAfter(s, u, e) && ObjsAfter(s, u, e)[t].id == s.objs[t].id
  {
  }

  /** The lists are the same to thread t. */
  ghost predicate SameTimes(s: State, s': State, t: Tid) { forall k: Compiler :: TimesOn(s', t, k) == TimesOn(s, t, k) }

  lemma SameRegistered(s: State, s': State, t: Tid, ks: seq<Compiler>)
    requires t in s.threads && t in s'.threads && s'.threads[t] == s.threads[t] && Registered(s, t, ks)
    requires s.threads[t].Running? ==> SameTimes(s, s', t)
    ensures Registered(s', t, ks)
  {
    hide TimesOn;
  }

  lemma OthersRegister(s: State, u: Tid, c: Choice, t: Tid, ks: seq<Compiler>)
    requires Inv(s) && t in s.threads && u != t && Enabled(s, Act(u, c)) && Registered(s, t, ks)
    ensures var s' := Next(s, Act(u, c)); t in s'.threads && Registered(s', t, ks)
  {
    hide IndexOk, MutexOk, TargetsOk, Decide, Registered, ObjsAfter, StatusAfter, UndoAfter, LocAfter, ListsAfter, ClientsAfter, Wants, Held, ChoiceFits;
    var e := Decide(s, u, s.threads[u], c).1;
    var s' := Next(s, Act(u, c));
    Listers(s, u, c);
    if s.threads[t].Running? {
      ThreadsGive(s, t);
      if e.Enlist? || e.Delist? { LiveIdsDiffer(s, t, u); }
      OthersId(s, u, e, t);
      forall k: Compiler ensures TimesOn(s', t, k) == TimesOn(s, t, k) { OthersKeepTimes(s, u, e, Me(s, t).id, k); }
    }
    SameRegistered(s, s', t, ks);
  }

  // ---- The thread's own steps ----

  lemma EntersUnlisted(s: State, t: Tid, ks: seq<Compiler>, c: Choice)
    requires Inv(s) && t in s.threads && s.threads[t] == Entering(ks, true) && Enabled(s, Act(t, c))
    ensures var s' := Next(s, Act(t, c)); s'.threads[t] == Running(RegWantCompilers(ks)) && OnLists(s', t, [])
  {
    hide ThreadsOk, MutexOk, TargetsOk, DelistedOk;
    var s' := Next(s, Act(t, c));
    forall k: Compiler ensures TimesOn(s', t, k) == 0 {
      assert s.lastId !in ListFor(s, k);
    }
  }

  lemma EnlistTimes(s: State, t: Tid, k: Compiler, pc: PC, j: Compiler)
    requires t in s.objs
    ensures TimesOn(Perform(s, t, Enlist(k), pc), t, j) == TimesOn(s, t, j) + if j == k then 1 else 0
  {
    hide StatusAfter, UndoAfter, LocAfter, ClientsAfter;
    AppendCount(ListFor(s, k), Me(s, t).id, Me(s, t).id);
  }

  lemma DelistTimes(s: State, t: Tid, k: Compiler, pc: PC, j: Compiler)
    requires t in s.objs
    ensures TimesOn(Perform(s, t, Delist(k), pc), t, j) == if j == k then 0 else TimesOn(s, t, j)
  {
    hide StatusAfter, UndoAfter, LocAfter, ClientsAfter, Without;
    WithoutCount(ListFor(s, k), Me(s, t).id, Me(s, t).id);
  }

  lemma QuietTimes(s: State, t: Tid, e: Effect, pc: PC, j: Compiler)
    requires t in s.objs && !e.Enlist? && !e.Delist? && !e.AddClient?
    ensures TimesOn(Perform(s, t, e, pc), t, j) == TimesOn(s, t, j)
  {
    hide StatusAfter, UndoAfter, LocAfter, ClientsAfter;
  }

  lemma RegisterOne(s: State, t: Tid, rest: seq<Compiler>, ks: seq<Compiler>)
    requires t in s.threads && t in s.objs && s.threads[t] == Running(RegCompilers(rest)) && rest != [] && Registered(s, t, ks)
    ensures Registered(Perform(s, t, Enlist(rest[0]), Running(RegCompilers(rest[1..]))), t, ks)
  {
    hide TimesOn, ObjsAfter, StatusAfter, UndoAfter, LocAfter, ListsAfter, ClientsAfter;
    var s' := Perform(s, t, Enlist(rest[0]), Running(RegCompilers(rest[1..])));
    var d := |ks| - |rest|;
    assert ks[..d + 1] == ks[..d] + [rest[0]];
    forall k: Compiler ensures TimesOn(s', t, k) == multiset(ks[..d + 1])[k] {
      EnlistTimes(s, t, rest[0], Running(RegCompilers(rest[1..])), k);
    }
  }

  lemma DelistOne(s: State, t: Tid, k: Compiler, todo: set<Compiler>, ks: seq<Compiler>)
    requires t in s.threads && t in s.objs && s.threads[t] == Running(RemList(k, todo)) && Registered(s, t, ks)
    ensures Registered(Perform(s, t, Delist(k), Running(RemCompilers(todo - {k}))), t, ks)
  {
    hide TimesOn, ObjsAfter, StatusAfter, UndoAfter, LocAfter, ListsAfter, ClientsAfter;
    var s' := Perform(s, t, Delist(k), Running(RemCompilers(todo - {k})));
    forall j: Compiler ensures TimesOn(s', t, j) == if j in todo - {k} then multiset(ks)[j] else 0 {
      DelistTimes(s, t, k, Running(RemCompilers(todo - {k})), j);
    }
  }

  lemma RunningRegisters(s: State, t: Tid, step: ClientStep, c: Choice, ks: seq<Compiler>)
    requires t in s.threads && t in s.objs && s.threads[t] == Running(step) && Registered(s, t, ks)
    requires StepWants(t, step).None? && ChoiceFits(s, Running(step), c)
    ensures var (pc, e) := DecideRunning(s, t, step, c); Registered(Perform(s, t, e, pc), t, ks)
  {
    hide TimesOn, ObjsAfter, StatusAfter, UndoAfter, LocAfter, ListsAfter, ClientsAfter;
    var (pc, e) := DecideRunning(s, t, step, c);
    if step.RegCompilers? {
      if step.ks == [] { Finished(s, t, pc, ks); } else { RegisterOne(s, t, step.ks, ks); }
    } else if step.RemList? {
      DelistOne(s, t, step.k, step.todo, ks);
    } else {
      var s' := Perform(s, t, e, pc);
      forall k: Compiler ensures TimesOn(s', t, k) == TimesOn(s, t, k) { QuietTimes(s, t, e, pc, k); }
    }
  }

  lemma Finished(s: State, t: Tid, pc: PC, ks: seq<Compiler>)
    requires t in s.threads && t in s.objs && s.threads[t] == Running(RegCompilers([])) && Registered(s, t, ks) && pc == Running(Idle)
    ensures Registered(Perform(s, t, Nothing, pc), t, ks)
  {
    hide TimesOn, ObjsAfter, StatusAfter, UndoAfter, LocAfter, ListsAfter, ClientsAfter;
    assert ks[..|ks|] == ks;
    var s' := Perform(s, t, Nothing, pc);
    forall k: Compiler ensures TimesOn(s', t, k) == TimesOn(s, t, k) { QuietTimes(s, t, Nothing, pc, k); }
  }

  lemma GotRegisters(s: State, t: Tid, ks: seq<Compiler>)
    requires t in s.threads && Registered(s, t, ks)
    ensures Registered(Goto(s, t, Got(s, s.threads[t])), t, ks)
  {
    hide TimesOn;
    var s' := Goto(s, t, Got(s, s.threads[t]));
    forall k: Compiler ensures TimesOn(s', t, k) == TimesOn(s, t, k) { SameLists(s, s', t, k); }
    if s.threads[t] == Running(RemWantCompilers) {
      forall k: Compiler | k !in s.lists ensures TimesOn(s, t, k) == 0 { Unlisted(s, t, k); }
    }
    if s.threads[t].Running? && s.threads[t].step.RegWantCompilers? { assert ks[0..] == ks && ks[..0] == []; }
  }

  lemma SameLists(s: State, s': State, t: Tid, k: Compiler)
    requires s'.lists == s.lists && s'.objs == s.objs
    ensures TimesOn(s', t, k) == TimesOn(s, t, k)
  {
  }

  lemma Unlisted(s: State, t: Tid, k: Compiler)
    requires k !in s.lists
    ensures TimesOn(s, t, k) == 0
  {
  }

  lemma OwnRegisters(s: State, t: Tid, c: Choice, ks: seq<Compiler>)
    requires Inv(s) && t in s.threads && Enabled(s, Act(t, c)) && Registered(s, t, ks)
    ensures Registered(Next(s, Act(t, c)), t, ks)
  {
    hide IndexOk, MutexOk, TargetsOk, ObjsAfter, StatusAfter, UndoAfter, LocAfter, ListsAfter, ClientsAfter, Held, OnLists, LeftLists, DecideRunning,
         DecideRemoving, DecidePoll, DecidePush, StepWants;
    ThreadsGive(s, t);
    match s.threads[t]
    case Entering(named, _) => EntersUnlisted(s, t, named, c);
    case Running(step) => RunningRegisters(s, t, step, c, ks);
    case Removing(drain) => NotRunning(s, t, c);
    case Poll(_) => NotRunning(s, t, c);
    case Push(_, _, _, _) => NotRunning(s, t, c);
  }

  lemma NotRunning(s: State, t: Tid, c: Choice)
    requires t in s.threads && (s.threads[t].Removing? || s.threads[t].Poll? || s.threads[t].Push?)
    ensures var pc := Decide(s, t, s.threads[t], c).0; !pc.Running? && !pc.Entering?
  {
  }

  lemma StepRegisters(s: State, l: Label, t: Tid, ks: seq<Compiler>)
    requires Inv(s) && t in s.threads && Registered(s, t, ks) && Enabled(s, l)
    ensures t in Next(s, l).threads && Registered(Next(s, l), t, ks)
  {
    hide Inv, Registered, Decide, Got, Perform, TimesOn, Held, Wants, ChoiceFits;
    match l
    case Act(u, c) => if u == t { OwnRegisters(s, t, c, ks); KeepsThread(s, u, c); } else { OthersRegister(s, u, c, t, ks); }
    case Acquire(u) => if u == t { GotRegisters(s, t, ks); } else { SameStep(s, l, t, ks); }
    case Submit(_, _) => SameStep(s, l, t, ks);
    case Accept(_, _) => SameStep(s, l, t, ks);
  }

  lemma KeepsThread(s: State, t: Tid, c: Choice)
    requires t in s.threads
    ensures t in Next(s, Act(t, c)).threads
  {
    hide Decide, ObjsAfter, StatusAfter, UndoAfter, LocAfter, ListsAfter, ClientsAfter;
  }

  lemma SameStep(s: State, l: Label, t: Tid, ks: seq<Compiler>)
    requires t in s.threads && Registered(s, t, ks) && Enabled(s, l) && !l.Act? && !(l.Acquire? && l.t == t)
    ensures t in Next(s, l).threads && Registered(Next(s, l), t, ks)
  {
    hide TimesOn, Registered, Got;
    var s' := Next(s, l);
    forall k: Compiler ensures TimesOn(s', t, k) == TimesOn(s, t, k) { SameLists(s, s', t, k); }
    SameRegistered(s, s', t, ks);
  }

  // ---- Runs ----

  lemma {:induction false} RunRegisters(states: seq<State>, labels: seq<Label>, a: nat, n: nat, t: Tid, ks: seq<Compiler>)
    requires Run(states, labels) && a < n < |states| && labels[a] == Accept(t, ks)
    ensures t in states[n].threads && Registered(states[n], t, ks)
    decreases n
  {
    hide Inv, Enabled, Next, Registered;
    var s, l := states[n - 1], labels[n - 1];
    assert Enabled(s, l) && states[n - 1 + 1] == Next(s, l);
    if n == a + 1 {
      Accepted(s, t, ks);
    } else {
      RunRegisters(states, labels, a, n - 1, t, ks);
      RunInv(states, labels, n - 1);
      StepRegisters(s, l, t, ks);
    }
  }

  lemma Accepted(s: State, t: Tid, ks: seq<Compiler>)
    ensures var s' := Next(s, Accept(t, ks)); t in s'.threads && Registered(s', t, ks)
  {
  }

  /** The client's registration is over and its removal has not begun. */
  predicate InService(pc: PC) {
    pc.Running? && (pc.step.Idle? || pc.step.ProcWant? || pc.step.ProcHold? || pc.step.PostWant? || pc.step.PostHold?
                    || pc.step.ClearWant? || pc.step.ClearHold? || pc.step.RemWantCompilers?)
  }

  /** In every run: while a client whose handshake named ks is in service, it is on the list of every
      compiler exactly as often as ks has it. */
  lemma RegisteredAsNamed(states: seq<State>, labels: seq<Label>, a: nat, n: nat, t: Tid, ks: seq<Compiler>, k: Compiler)
    requires Run(states, labels) && a < n < |states| && labels[a] == Accept(t, ks)
    ensures var s := states[n];
            && t in s.threads
            && (InService(s.threads[t]) ==>
                  && t in s.objs && s.objs[t].id in s.clients && s.clients[s.objs[t].id] == t
                  && multiset(if k in s.lists then s.lists[k] else [])[s.objs[t].id] == multiset(ks)[k])
  {
    hide Run, IndexOk, MutexOk, TargetsOk;
    RunRegisters(states, labels, a, n, t, ks);
    RunInv(states, labels, n);
    ThreadsGive(states[n], t);
    var s := states[n];
    if InService(s.threads[t]) { assert TimesOn(s, t, k) == multiset(ks)[k]; }
  }

  // ---- The order of a list ----

  /** Step l registers the client of thread u, which has the given id, for compiler k. */
  predicate Registers(s: State, l: Label, u: Tid, id: ClientId, k: Compiler) {
    && l.Act? && l.t == u && u in s.threads && u in s.objs && s.objs[u].id == id
    && s.threads[u].Running? && s.threads[u].step.RegCompilers? && s.threads[u].step.ks != [] && s.threads[u].step.ks[0] == k
  }

  /** The entries of the list of k are of the registrations at these steps, in this order. */
  ghost predicate InOrder(states: seq<State>, labels: seq<Label>, n: nat, k: Compiler, steps: seq<nat>)
    requires n < |states| == |labels| + 1
  {
    var list, clients := ListFor(states[n], k), states[n].clients;
    && |steps| == |list|
    && (forall i, j | 0 <= i < j < |steps| :: steps[i] < steps[j])
    && forall i | 0 <= i < |steps| ::
         steps[i] < n && list[i] in clients && Registers(states[steps[i]], labels[steps[i]], clients[list[i]], list[i], k)
  }

  lemma EnlistRegisters(s: State, u: Tid, c: Choice, k: Compiler)
    requires ThreadsOk(s) && u in s.threads && Enabled(s, Act(u, c)) && Decide(s, u, s.threads[u], c).1 == Enlist(k)
    ensures Registers(s, Act(u, c), u, Me(s, u).id, k) && u in s.objs && s.objs[u].id in s.clients && s.clients[s.objs[u].id] == u
  {
    hide ThreadsOk;
    ThreadsGive(s, u);
  }

  /** An id that is in clients_map before and after a step is the same client's. */
  lemma ClientsKept(s: State, l: Label, id: ClientId)
    requires Enabled(s, l) && id in s.clients && id in Next(s, l).clients
    ensures Next(s, l).clients[id] == s.clients[id]
  {
    hide ObjsAfter, StatusAfter, UndoAfter, LocAfter, ListsAfter, Held, DecideRunning, DecideRemoving, DecidePoll, DecidePush, Got, Wants;
    if l.Act? { Adders(s, l.t, l.c); }
  }

  lemma Adders(s: State, t: Tid, c: Choice)
    requires t in s.threads
    ensures Decide(s, t, s.threads[t], c).1.AddClient? ==> s.threads[t].Entering?
  {
  }

  /** What a step does to the list of compiler k. */
  lemma ListStep(s: State, l: Label, k: Compiler)
    requires Enabled(s, l)
    ensures var list, list' := ListFor(s, k), ListFor(Next(s, l), k);
            if l.Act? then
              var e := Decide(s, l.t, s.threads[l.t], l.c).1;
              list' == if e == Enlist(k) then list + [Me(s, l.t).id] else if e == Delist(k) then Without(list, Me(s, l.t).id) else list
            else list' == list
  {
    hide Decide, Got, ObjsAfter, StatusAfter, UndoAfter, LocAfter, ClientsAfter, Wants, Held, ChoiceFits, Without;
  }

  lemma IndexedList(s: State, k: Compiler)
    requires Inv(s)
    ensures forall i | 0 <= i < |ListFor(s, k)| :: ListFor(s, k)[i] in s.clients
  {
    hide ThreadsOk, MutexOk, TargetsOk, DelistedOk;
  }

  /** In every run every list is in the order of the registrations of the clients still on it: its
      entries are of registrations at strictly later and later steps, each of the client that has
      the id now. */
  lemma {:induction false} ListsInOrder(states: seq<State>, labels: seq<Label>, n: nat, k: Compiler) returns (steps: seq<nat>)
    requires Run(states, labels) && n < |states|
    ensures InOrder(states, labels, n, k, steps)
  {
    hide Inv, Enabled, Next, Decide, Registers, Without, ListFor;
    if n == 0 {
      steps := [];
      NoLists(k);
    } else {
      var s, l := states[n - 1], labels[n - 1];
      var before := ListsInOrder(states, labels, n - 1, k);
      assert Enabled(s, l) && states[n - 1 + 1] == Next(s, l);
      RunInv(states, labels, n - 1);
      RunInv(states, labels, n);
      IndexedList(states[n], k);
      EnabledActs(s, l);
      ListStep(s, l, k);
      forall id | id in s.clients && id in states[n].clients ensures states[n].clients[id] == s.clients[id] { ClientsKept(s, l, id); }
      var list, list' := ListFor(s, k), ListFor(states[n], k);
      if l.Act? && Decide(s, l.t, s.threads[l.t], l.c).1 == Enlist(k) {
        steps := before + [n - 1];
        ListRegisters(s, l, k);
        Appended(states, labels, n, k, before, list, Me(s, l.t).id, l.t);
      } else if l.Act? && Decide(s, l.t, s.threads[l.t], l.c).1 == Delist(k) {
        var kept := WithoutKeepsOrder(list, Me(s, l.t).id);
        steps := seq(|kept|, i requires 0 <= i < |kept| => if kept[i] < |before| then before[kept[i]] else 0);
        Removed(states, labels, n, k, before, kept, steps);
      } else {
        steps := before;
      }
    }
  }

  lemma NoLists(k: Compiler)
    ensures ListFor(Init(), k) == []
  {
  }

  lemma ListRegisters(s: State, l: Label, k: Compiler)
    requires Inv(s) && Enabled(s, l) && l.Act? && Decide(s, l.t, s.threads[l.t], l.c).1 == Enlist(k)
    ensures Registers(s, l, l.t, Me(s, l.t).id, k) && Me(s, l.t).id in s.clients && s.clients[Me(s, l.t).id] == l.t
  {
    hide IndexOk, MutexOk, TargetsOk, ThreadsOk, Decide, Enabled, Registers;
    EnabledActs(s, l);
    EnlistRegisters(s, l.t, l.c, k);
  }

  lemma EnabledActs(s: State, l: Label)
    requires Enabled(s, l)
    ensures l.Act? ==> l.t in s.threads
  {
  }

  lemma Appended(states: seq<State>, labels: seq<Label>, n: nat, k: Compiler, before: seq<nat>, list: seq<ClientId>, id: ClientId, u: Tid)
    requires 0 < n < |states| == |labels| + 1 && InOrder(states, labels, n - 1, k, before) && list == ListFor(states[n - 1], k)
    requires ListFor(states[n], k) == list + [id] && forall i | 0 <= i < |list| + 1 :: (list + [id])[i] in states[n].clients
    requires forall y | y in states[n - 1].clients && y in states[n].clients :: states[n].clients[y] == states[n - 1].clients[y]
    requires Registers(states[n - 1], labels[n - 1], u, id, k) && id in states[n - 1].clients && states[n - 1].clients[id] == u
    ensures InOrder(states, labels, n, k, before + [n - 1])
  {
    hide Registers, ListFor;
    var steps := before + [n - 1];
    assert (list + [id])[|list|] == id;
    forall i | 0 <= i < |list| ensures (list + [id])[i] == list[i] && steps[i] == before[i] { }
  }

  lemma Removed(states: seq<State>, labels: seq<Label>, n: nat, k: Compiler, before: seq<nat>, kept: seq<nat>, steps: seq<nat>)
    requires 0 < n < |states| == |labels| + 1 && InOrder(states, labels, n - 1, k, before)
    requires var list, list' := ListFor(states[n - 1], k), ListFor(states[n], k);
             && |kept| == |list'| && (forall i | 0 <= i < |kept| :: kept[i] < |list| && list'[i] == list[kept[i]])
             && (forall i, j | 0 <= i < j < |kept| :: kept[i] < kept[j])
             && (forall i | 0 <= i < |list'| :: list'[i] in states[n].clients)
    requires forall y | y in states[n - 1].clients && y in states[n].clients :: states[n].clients[y] == states[n - 1].clients[y]
    requires |steps| == |kept| && forall i | 0 <= i < |kept| :: kept[i] < |before| && steps[i] == before[kept[i]]
    ensures InOrder(states, labels, n, k, steps)
  {
    hide Registers, ListFor;
  }
}
