/** remove_client among all the other threads: from the moment it has its client's mutex it pushes
    exactly the solution under check and then the queue as they were at that moment, in order,
    whatever the others do. */
module ServerRemoval {
  import opened Options
  import opened ServerModel
  import opened ServerLocks

  /** Between taking the client's mutex and giving it back. */
  predicate Draining(s: State, t: Tid) {
    t in s.threads &&
    match s.threads[t]
    case Removing(drain) => drain.DrainStart? || drain.DrainClear? || drain.Drain?
    case Push(caller, _, _, _) => caller.ByRemover?
    case _ => false
  }

  predicate Drained(s: State, t: Tid) { t in s.threads && s.threads[t] == Removing(Done) }

  function WorkOf(c: Client): seq<SolutionId> {
    (if c.checking.Some? then [c.checking.value] else []) + c.queue
  }

  /** What remove_client has yet to push. */
  function Remaining(s: State, t: Tid): seq<SolutionId> {
    if !Draining(s, t) then []
    else if s.threads[t] == Removing(DrainStart) then WorkOf(Me(s, t))
    else Me(s, t).queue
  }

  /** The push_solution call that step l starts for thread t, if any. */
  function Started(s: State, l: Label, t: Tid): seq<SolutionId> {
    if l.Act? && l.t == t && t in s.threads then
      match Decide(s, t, s.threads[t], l.c).0
      case Push(caller, x, _, stage) => if stage.Find? then [x] else []
      case _ => []
    else []
  }

  lemma RemovingStep(s: State, t: Tid, drain: DrainStep, c: Choice)
    requires t in s.objs && t in s.threads && s.threads[t] == Removing(drain) && Draining(s, t)
    ensures var s' := Next(s, Act(t, c));
            && (Draining(s', t) || Drained(s', t))
            && Started(s, Act(t, c), t) + Remaining(s', t) == Remaining(s, t)
  {
    hide LocAfter, StatusAfter, ListsAfter, ClientsAfter;
    var me := Me(s, t);
    if drain.Drain? && me.queue != [] { assert me.queue == [me.queue[0]] + me.queue[1..]; }
  }

  lemma PushDecides(s: State, caller: Caller, x: SolutionId, k: Compiler, stage: Stage, c: Choice)
    requires StageWants(stage, k).None?
    ensures var (pc, e) := DecidePush(s, caller, x, k, stage, c);
            && (pc == Return(caller) || (pc.Push? && pc.caller == caller && !pc.stage.Find?))
            && (e.Nothing? || e.MarkFailure? || (e.Deliver? && stage == HoldChosen(e.o)))
  {
  }

  lemma PushingStep(s: State, t: Tid, c: Choice)
    requires Inv(s) && t in s.threads && s.threads[t].Push? && Draining(s, t) && Enabled(s, Act(t, c))
    ensures var s' := Next(s, Act(t, c));
            && (Draining(s', t) || Drained(s', t))
            && Started(s, Act(t, c), t) + Remaining(s', t) == Remaining(s, t)
  {
    hide Inv, DecidePush, LocAfter, StatusAfter, ListsAfter, ClientsAfter;
    var pc := s.threads[t];
    PushDecides(s, pc.caller, pc.x, pc.k, pc.stage, c);
    if pc.stage.HoldChosen? { DeliverElsewhere(s, t, pc.stage.o); }
  }

  lemma OwnStep(s: State, t: Tid, c: Choice)
    requires Inv(s) && Draining(s, t) && Enabled(s, Act(t, c))
    ensures var s' := Next(s, Act(t, c));
            && (Draining(s', t) || Drained(s', t))
            && Started(s, Act(t, c), t) + Remaining(s', t) == Remaining(s, t)
  {
    hide IndexOk, MutexOk, ThreadsOk, TargetsOk, Started, Remaining, Next, Enabled;
    ThreadsGive(s, t);
    match s.threads[t]
    case Removing(drain) => RemovingStep(s, t, drain, c);
    case Push(_, _, _, stage) => PushingStep(s, t, c);
  }

  lemma DeliverElsewhere(s: State, t: Tid, o: Tid)
    requires Inv(s) && t in s.threads && s.threads[t].Push? && s.threads[t].stage == HoldChosen(o)
    ensures s.threads[t].caller.ByRemover? ==> o != t
  {
    hide IndexOk, MutexOk;
    ThreadsGive(s, t);
    assert TargetOk(s, t);
  }

  lemma EffectElsewhere(s: State, u: Tid, e: Effect, t: Tid)
    requires t != u && t in s.objs && !(e.Deliver? && e.o == t)
    ensures t in ObjsAfter(s, u, e) && ObjsAfter(s, u, e)[t] == s.objs[t]
  {
  }

  lemma DeliverersHold(s: State, u: Tid, c: Choice)
    requires u in s.threads && Wants(u, s.threads[u]).None?
    ensures var e := Decide(s, u, s.threads[u], c).1;
            e.Deliver? ==> ClientMutex(e.o) in Held(u, s.threads[u])
  {
    match s.threads[u]
    case Entering(_, _) =>
    case Running(_) =>
    case Removing(_) =>
    case Poll(_) =>
    case Push(_, _, _, stage) =>
  }

  lemma DrainerHolds(s: State, t: Tid)
    requires Inv(s) && Draining(s, t)
    ensures t in s.threads && ClientMutex(t) in Held(t, s.threads[t]) && t in s.objs
  {
    hide IndexOk, MutexOk, TargetsOk, ThreadsOk;
    ThreadsGive(s, t);
  }

  /** Nobody else touches the queue or the slot of a client whose remover holds its mutex. */
  lemma OthersKeepOff(s: State, t: Tid, u: Tid, c: Choice)
    requires Inv(s) && Draining(s, t) && u != t && Enabled(s, Act(u, c))
    ensures var objs := ObjsAfter(s, u, Decide(s, u, s.threads[u], c).1);
            t in s.objs && t in objs && objs[t] == s.objs[t]
  {
    hide Draining, IndexOk, TargetsOk, ThreadsOk, Decide, ObjsAfter, Held, Wants;
    DrainerHolds(s, t);
    DeliverersHold(s, u, c);
    EffectElsewhere(s, u, Decide(s, u, s.threads[u], c).1, t);
  }

  lemma OtherStep(s: State, l: Label, t: Tid)
    requires Inv(s) && Draining(s, t) && Enabled(s, l) && !(l.Act? && l.t == t)
    ensures Draining(Next(s, l), t) && Remaining(Next(s, l), t) == Remaining(s, t)
  {
    hide Inv, IndexOk, MutexOk, TargetsOk, Decide, LocAfter, StatusAfter, ListsAfter, ClientsAfter, ObjsAfter;
    match l
    case Act(u, c) => OthersKeepOff(s, t, u, c);
    case Submit(_, _) =>
    case Accept(_, _) =>
    case Acquire(u) =>
  }

  /** The push_solution calls of thread t in steps i to j of a run. */
  ghost function PushedBy(states: seq<State>, labels: seq<Label>, t: Tid, i: nat, j: nat): seq<SolutionId>
    requires i <= j <= |labels| && |states| == |labels| + 1
  {
    if i == j then [] else PushedBy(states, labels, t, i, j - 1) + Started(states[j - 1], labels[j - 1], t)
  }

  lemma DoneStays(s: State, l: Label, t: Tid)
    requires Drained(s, t) && Enabled(s, l)
    ensures Drained(Next(s, l), t) && Started(s, l, t) == []
  {
    hide Decide, LocAfter, StatusAfter, ListsAfter, ClientsAfter, ObjsAfter;
  }

  /** From the state in which remove_client gets its client's mutex on, what it has pushed followed
      by what it has yet to push is the solution under check and the queue of that state. */
  lemma {:induction false} RemovalPushesItsWork(states: seq<State>, labels: seq<Label>, t: Tid, i: nat, j: nat)
    requires Run(states, labels) && i <= j < |states|
    requires t in states[i].threads && states[i].threads[t] == Removing(DrainStart)
    ensures Draining(states[j], t) || Drained(states[j], t)
    ensures PushedBy(states, labels, t, i, j) + Remaining(states[j], t) == WorkOf(Me(states[i], t))
    ensures Drained(states[j], t) ==> PushedBy(states, labels, t, i, j) == WorkOf(Me(states[i], t))
    decreases j
  {
    hide Inv, Enabled, Next, Draining, Drained, Started, Remaining;
    if i == j {
      RemovalStarts(states[i], t);
    } else {
      RemovalPushesItsWork(states, labels, t, i, j - 1);
      var s, l := states[j - 1], labels[j - 1];
      assert Enabled(s, l) && states[j - 1 + 1] == Next(s, l);
      if Drained(s, t) {
        DoneStays(s, l, t);
        NothingRemains(s, t);
      } else {
        RunInv(states, labels, j - 1);
        if l.Act? && l.t == t { OwnStep(s, t, l.c); } else { OtherStep(s, l, t); NotStarted(s, l, t); }
      }
      if Drained(states[j], t) { NothingRemains(states[j], t); }
    }
  }

  lemma RemovalStarts(s: State, t: Tid)
    requires t in s.threads && s.threads[t] == Removing(DrainStart)
    ensures Draining(s, t) && !Drained(s, t) && Remaining(s, t) == WorkOf(Me(s, t))
  {
  }

  lemma NothingRemains(s: State, t: Tid)
    requires Drained(s, t)
    ensures Remaining(s, t) == []
  {
  }

  lemma NotStarted(s: State, l: Label, t: Tid)
    requires !(l.Act? && l.t == t)
    ensures Started(s, l, t) == []
  {
  }

  // ---- Where it lands ----

  /** The solution of a push under way. */
  function InFlight(s: State, t: Tid): seq<SolutionId> {
    if t in s.threads && s.threads[t].Push? && s.threads[t].caller.ByRemover? then [s.threads[t].x] else []
  }

  /** Where step l puts the solution that thread t pushes: into a client's queue, or, with None, it fails. */
  datatype Landing = Landing(x: SolutionId, at: Option<Tid>)

  function Landed(s: State, l: Label, t: Tid): seq<Landing> {
    if l.Act? && l.t == t && t in s.threads then
      match Decide(s, t, s.threads[t], l.c).1
      case Deliver(x, o) => [Landing(x, Some(o))]
      case MarkFailure(x, _) => [Landing(x, None)]
      case _ => []
    else []
  }

  function Solutions(ls: seq<Landing>): (r: seq<SolutionId>)
    ensures |r| == |ls|
  {
    seq(|ls|, i requires 0 <= i < |ls| => ls[i].x)
  }

  lemma SolutionsAppend(a: seq<Landing>, b: seq<Landing>)
    ensures Solutions(a + b) == Solutions(a) + Solutions(b)
  {
  }

  ghost function LandedBy(states: seq<State>, labels: seq<Label>, t: Tid, i: nat, j: nat): seq<Landing>
    requires i <= j <= |labels| && |states| == |labels| + 1
  {
    if i == j then [] else LandedBy(states, labels, t, i, j - 1) + Landed(states[j - 1], labels[j - 1], t)
  }

  /** A push ends by landing its solution, once, and never with the client that is being removed. */
  lemma PushLands(s: State, t: Tid, c: Choice)
    requires Inv(s) && t in s.threads && s.threads[t].Push? && s.threads[t].caller.ByRemover? && Enabled(s, Act(t, c))
    ensures var s', l := Next(s, Act(t, c)), Act(t, c);
            && InFlight(s, t) + Started(s, l, t) == Solutions(Landed(s, l, t)) + InFlight(s', t)
            && forall i | 0 <= i < |Landed(s, l, t)| :: Landed(s, l, t)[i].at != Some(t)
  {
    hide Inv, DecidePush, LocAfter, StatusAfter, UndoAfter, ListsAfter, ClientsAfter, ObjsAfter;
    var pc := s.threads[t];
    PushDecides(s, pc.caller, pc.x, pc.k, pc.stage, c);
    PushCarries(s, pc.caller, pc.x, pc.k, pc.stage, c);
    if pc.stage.HoldChosen? { DeliverElsewhere(s, t, pc.stage.o); }
  }

  lemma PushCarries(s: State, caller: Caller, x: SolutionId, k: Compiler, stage: Stage, c: Choice)
    requires StageWants(stage, k).None?
    ensures var (pc, e) := DecidePush(s, caller, x, k, stage, c);
            && (pc.Push? ==> pc.x == x && e.Nothing?) && (!pc.Push? ==> (e.MarkFailure? || e.Deliver?) && e.x == x)
  {
    match stage
    case Find =>
    case Scan(i, best) =>
    case HoldCur(cur, i, best) =>
    case HoldChosen(o) =>
  }

  lemma RemovingLands(s: State, t: Tid, drain: DrainStep, c: Choice)
    requires t in s.threads && s.threads[t] == Removing(drain)
    ensures var s', l := Next(s, Act(t, c)), Act(t, c);
            Landed(s, l, t) == [] && InFlight(s, t) + Started(s, l, t) == InFlight(s', t)
  {
    hide LocAfter, StatusAfter, UndoAfter, ListsAfter, ClientsAfter, ObjsAfter;
  }

  lemma LandStep(s: State, l: Label, t: Tid)
    requires Inv(s) && Enabled(s, l) && Draining(s, t)
    ensures InFlight(s, t) + Started(s, l, t) == Solutions(Landed(s, l, t)) + InFlight(Next(s, l), t)
    ensures forall i | 0 <= i < |Landed(s, l, t)| :: Landed(s, l, t)[i].at != Some(t)
  {
    hide Inv, Decide, LocAfter, StatusAfter, UndoAfter, ListsAfter, ClientsAfter, ObjsAfter, Wants, Held, ChoiceFits, Got;
    if l.Act? && l.t == t {
      match s.threads[t]
      case Removing(drain) => RemovingLands(s, t, drain, l.c);
      case Push(_, _, _, _) => PushLands(s, t, l.c);
    } else if l.Acquire? && l.t == t {
      GotFlight(s, t);
    }
  }

  lemma GotFlight(s: State, t: Tid)
    requires t in s.threads
    ensures InFlight(Next(s, Acquire(t)), t) == InFlight(s, t)
  {
  }

  /** In every run, from the state in which remove_client gets its client's mutex on: what it has
      pushed is what has landed, in order, and the push under way; each landed once, in the queue
      of another client or failed. */
  lemma {:induction false} RemovalLandsItsWork(states: seq<State>, labels: seq<Label>, t: Tid, i: nat, j: nat)
    requires Run(states, labels) && i <= j < |states|
    requires t in states[i].threads && states[i].threads[t] == Removing(DrainStart)
    ensures Solutions(LandedBy(states, labels, t, i, j)) + InFlight(states[j], t) == PushedBy(states, labels, t, i, j)
    ensures forall p | 0 <= p < |LandedBy(states, labels, t, i, j)| :: LandedBy(states, labels, t, i, j)[p].at != Some(t)
    decreases j
  {
    hide Inv, Enabled, Next, Draining, Drained, Started, Landed, Solutions, InFlight;
    if i == j {
      NoFlight(states[i], t);
    } else {
      RemovalLandsItsWork(states, labels, t, i, j - 1);
      RemovalPushesItsWork(states, labels, t, i, j - 1);
      var s, l := states[j - 1], labels[j - 1];
      assert Enabled(s, l) && states[j - 1 + 1] == Next(s, l);
      RunInv(states, labels, j - 1);
      var before, now := LandedBy(states, labels, t, i, j - 1), Landed(s, l, t);
      if Drained(s, t) { DoneLands(s, l, t); } else { LandStep(s, l, t); }
      LandMore(before, now, InFlight(s, t), Started(s, l, t), PushedBy(states, labels, t, i, j - 1), InFlight(states[j], t));
      Elsewhere(before, now, t);
    }
  }

  lemma LandMore(before: seq<Landing>, now: seq<Landing>, flight: seq<SolutionId>, started: seq<SolutionId>, pushed: seq<SolutionId>, flight': seq<SolutionId>)
    requires Solutions(before) + flight == pushed && flight + started == Solutions(now) + flight'
    ensures Solutions(before + now) + flight' == pushed + started
  {
    hide Solutions;
    SolutionsAppend(before, now);
    assert Solutions(before) + (flight + started) == pushed + started;
  }

  lemma Elsewhere(before: seq<Landing>, now: seq<Landing>, t: Tid)
    requires (forall p | 0 <= p < |before| :: before[p].at != Some(t)) && forall p | 0 <= p < |now| :: now[p].at != Some(t)
    ensures forall p | 0 <= p < |before + now| :: (before + now)[p].at != Some(t)
  {
  }

  lemma NoFlight(s: State, t: Tid)
    requires t in s.threads && s.threads[t] == Removing(DrainStart)
    ensures InFlight(s, t) == [] && Solutions([]) == []
  {
  }

  lemma DoneLands(s: State, l: Label, t: Tid)
    requires Drained(s, t) && Enabled(s, l)
    ensures InFlight(s, t) == [] && Started(s, l, t) == [] && Landed(s, l, t) == [] && InFlight(Next(s, l), t) == []
    ensures Solutions(Landed(s, l, t)) == []
  {
    hide Decide, LocAfter, StatusAfter, UndoAfter, ListsAfter, ClientsAfter, ObjsAfter;
  }
}
