/** In which order solutions go through the dispatcher: the poller pushes what it was handed in the
    order of the select, every client checks what it was sent first in, first out, and a result is
    posted as it was reported. */
module ServerQueues {
  import opened Options
  import opened ServerModel
  import opened ServerLocks
  import opened ServerRows

  // ---- A client's queue ----

  /** The object of client o is there, and its thread has not come to the end of remove_client. */
  predicate InUse(s: State, o: Tid) { o in s.objs && !(o in s.threads && s.threads[o] == Removing(Done)) }

  /** What step l puts into the queue of client o. */
  function DeliveredAt(s: State, l: Label, o: Tid): seq<SolutionId> {
    if l.Act? && l.t in s.threads && s.threads[l.t].Push? && s.threads[l.t].stage == HoldChosen(o) && InUse(s, o) then [s.threads[l.t].x]
    else []
  }

  /** What step l takes from the queue of client o: what it then has under check, or, in remove_client,
      then pushes on. */
  function TakenAt(s: State, l: Label, s': State, o: Tid): seq<SolutionId> {
    if !l.Act? || l.t != o || o !in s.threads || Me(s, o).queue == [] then []
    else if s.threads[o] == Running(ProcHold) then if Me(s', o).checking.Some? then [Me(s', o).checking.value] else []
    else if s.threads[o] == Removing(Drain) then
      if o in s'.threads && s'.threads[o].Push? then [s'.threads[o].x] else []
    else []
  }

  /** Effects on the queue of the thread's own client, and of another. */
  lemma QueueEffect(s: State, t: Tid, e: Effect, pc: PC, o: Tid)
    requires e.AddClient? ==> t !in s.objs
    requires e.Deliver? ==> e.o in s.objs && e.o != t
    ensures var q, q' := Me(s, o).queue, Me(Perform(s, t, e, pc), o).queue;
            && (e == Deliver(if e.Deliver? then e.x else 0, o) && InUse(s, o) ==> q' == q + [e.x])
            && (o == t && (e.TakeNext? || e.TakeBack?) && q != [] ==> q' == q[1..])
            && (o == t && e.TakeNext? && q != [] ==> Me(Perform(s, t, e, pc), o).checking == Some(q[0]))
            && (!(e.Deliver? && e.o == o && InUse(s, o)) && !(o == t && (e.TakeNext? || e.TakeBack?)) ==> q' == q)
  {
    hide StatusAfter, UndoAfter, LocAfter, ListsAfter, ClientsAfter;
  }

  /** Which code has which effect on queues. */
  lemma QueueCode(s: State, t: Tid, c: Choice)
    requires t in s.threads && ThreadOk(s, t) && Enabled(s, Act(t, c))
    ensures var (pc, e) := Decide(s, t, s.threads[t], c);
            && (e.AddClient? ==> t !in s.objs)
            && (e.Deliver? <==> s.threads[t].Push? && s.threads[t].stage.HoldChosen?)
            && (e.Deliver? ==> e == Deliver(s.threads[t].x, s.threads[t].stage.o))
            && (e.TakeNext? <==> s.threads[t] == Running(ProcHold) && Me(s, t).queue != [])
            && (e.TakeBack? <==> s.threads[t] == Removing(Drain) && Me(s, t).queue != [])
            && (e.TakeBack? ==> pc.Push? && pc.x == Me(s, t).queue[0])
  {
    hide Held;
    match s.threads[t]
    case Entering(_, _) =>
    case Running(_) =>
    case Removing(_) =>
    case Poll(_) =>
    case Push(_, _, _, stage) =>
  }

  lemma ActQueue(s: State, t: Tid, c: Choice, o: Tid)
    requires Inv(s) && Enabled(s, Act(t, c))
    ensures var l, s' := Act(t, c), Next(s, Act(t, c));
            Me(s, o).queue + DeliveredAt(s, l, o) == TakenAt(s, l, s', o) + Me(s', o).queue
  {
    hide IndexOk, MutexOk, Decide, ObjsAfter, StatusAfter, UndoAfter, LocAfter, ListsAfter, ClientsAfter, Held, Wants, ChoiceFits, ThreadsOk, ThreadOk, TargetsOk;
    var (pc, e) := Decide(s, t, s.threads[t], c);
    ThreadsGive(s, t);
    QueueCode(s, t, c);
    if e.Deliver? { DeliverTarget(s, t, e.o); }
    QueueEffect(s, t, e, pc, o);
    var q := Me(s, o).queue;
    if q != [] { assert [q[0]] + q[1..] == q; }
  }

  lemma QueueStep(s: State, l: Label, o: Tid)
    requires Inv(s) && Enabled(s, l)
    ensures Me(s, o).queue + DeliveredAt(s, l, o) == TakenAt(s, l, Next(s, l), o) + Me(Next(s, l), o).queue
  {
    hide Inv, Decide, Got, Perform, Held, Wants, ChoiceFits;
    if l.Act? { ActQueue(s, l.t, l.c, o); }
  }

  /** All that was put into the queue of client o before state n, in order. */
  ghost function Delivered(states: seq<State>, labels: seq<Label>, o: Tid, n: nat): seq<SolutionId>
    requires n <= |labels| && |states| == |labels| + 1
  {
    if n == 0 then [] else Delivered(states, labels, o, n - 1) + DeliveredAt(states[n - 1], labels[n - 1], o)
  }

  /** All that was taken from it, in order. */
  ghost function Taken(states: seq<State>, labels: seq<Label>, o: Tid, n: nat): seq<SolutionId>
    requires n <= |labels| && |states| == |labels| + 1
  {
    if n == 0 then [] else Taken(states, labels, o, n - 1) + TakenAt(states[n - 1], labels[n - 1], states[n], o)
  }

  /** In every run, for every client: what it has had under check or has pushed on, in order, and then
      what is still queued is what was delivered to it, in order. */
  lemma {:induction false} ClientQueueIsFifo(states: seq<State>, labels: seq<Label>, o: Tid, n: nat)
    requires Run(states, labels) && n < |states|
    ensures Delivered(states, labels, o, n) == Taken(states, labels, o, n) + Me(states[n], o).queue
  {
    hide Inv, Enabled, Next, DeliveredAt, TakenAt, Me;
    if n == 0 {
      NoQueue(o);
    } else {
      ClientQueueIsFifo(states, labels, o, n - 1);
      var s, l := states[n - 1], labels[n - 1];
      assert Enabled(s, l) && states[n - 1 + 1] == Next(s, l);
      RunInv(states, labels, n - 1);
      QueueStep(s, l, o);
      Regroup(Taken(states, labels, o, n - 1), Me(s, o).queue, DeliveredAt(s, l, o), TakenAt(s, l, states[n], o), Me(states[n], o).queue);
    }
  }

  lemma NoQueue(o: Tid)
    ensures Me(Init(), o).queue == []
  {
  }

  lemma Regroup(taken: seq<SolutionId>, q: seq<SolutionId>, more: seq<SolutionId>, now: seq<SolutionId>, q': seq<SolutionId>)
    requires q + more == now + q'
    ensures taken + q + more == taken + now + q'
  {
    assert taken + q + more == taken + (q + more);
    assert taken + (now + q') == taken + now + q';
  }

  // ---- The poller's batch ----

  /** What the poller has yet to push. */
  function Batched(s: State): seq<SolutionId> {
    match PollerPc(s)
    case Poll(poll) => if poll.Batch? then poll.pending else []
    case Push(caller, _, _, _) => if caller.ByPoller? then caller.pending else []
    case _ => []
  }

  /** The rows that step l hands to the poller: those its select returned, if the commit succeeds. */
  function HandedAt(s: State, l: Label): seq<SolutionId> {
    if l.Act? && l.t == POLLER && l.c.Go? && PollerPc(s).Poll? && PollerPc(s).poll.Marking? && PollerPc(s).poll.done >= |PollerPc(s).poll.ids|
    then PollerPc(s).poll.ids else []
  }

  /** The solution that the poller starts to push at step l. */
  function PushedAt(s: State, l: Label, s': State): seq<SolutionId> {
    if l.Act? && l.t == POLLER && PollerPc(s).Poll? && PollerPc(s').Push? then [PollerPc(s').x] else []
  }

  lemma PollBatch(s: State, poll: PollStep, c: Choice)
    requires POLLER in s.threads && s.threads[POLLER] == Poll(poll) && Enabled(s, Act(POLLER, c))
    ensures var l, s' := Act(POLLER, c), Next(s, Act(POLLER, c));
            Batched(s) + HandedAt(s, l) == PushedAt(s, l, s') + Batched(s')
  {
    hide ObjsAfter, StatusAfter, UndoAfter, LocAfter, ListsAfter, ClientsAfter, Held, FreshRows;
    if poll.Batch? && poll.pending != [] { assert [poll.pending[0]] + poll.pending[1..] == poll.pending; }
  }

  lemma PushBatch(s: State, t: Tid, c: Choice)
    requires t in s.threads && s.threads[t].Push? && Enabled(s, Act(t, c))
    ensures var pc, pc' := s.threads[t], Decide(s, t, s.threads[t], c).0;
            pc.caller.ByPoller? ==> (pc'.Push? && pc'.caller == pc.caller) || pc' == Poll(Batch(pc.caller.pending))
  {
    hide Held, Loaded;
  }

  lemma BatchStep(s: State, l: Label)
    requires Inv(s) && Enabled(s, l)
    ensures Batched(s) + HandedAt(s, l) == PushedAt(s, l, Next(s, l)) + Batched(Next(s, l))
  {
    hide IndexOk, MutexOk, TargetsOk, ThreadsOk, Decide, Got, ObjsAfter, StatusAfter, UndoAfter, LocAfter, ListsAfter, ClientsAfter, Held, Wants, ChoiceFits;
    PollerThere(s);
    match l
    case Act(t, c) =>
      if t == POLLER {
        ThreadsGive(s, t);
        if s.threads[t].Poll? { PollBatch(s, s.threads[t].poll, c); } else { PushBatch(s, t, c); }
      }
    case Acquire(t) => GotBatch(s, s.threads[t]);
    case Submit(_, _) =>
    case Accept(_, _) =>
  }

  lemma GotBatch(s: State, pc: PC)
    ensures var pc' := Got(s, pc);
            && (pc.Poll? <==> pc'.Poll?) && (pc.Push? <==> pc'.Push?) && (pc.Push? ==> pc'.caller == pc.caller)
            && (pc.Poll? && pc.poll.Batch? ==> pc' == pc) && (pc'.Poll? && pc'.poll.Batch? ==> pc' == pc)
  {
  }

  ghost function Handed(states: seq<State>, labels: seq<Label>, n: nat): seq<SolutionId>
    requires n <= |labels| && |states| == |labels| + 1
  {
    if n == 0 then [] else Handed(states, labels, n - 1) + HandedAt(states[n - 1], labels[n - 1])
  }

  ghost function Pushed(states: seq<State>, labels: seq<Label>, n: nat): seq<SolutionId>
    requires n <= |labels| && |states| == |labels| + 1
  {
    if n == 0 then [] else Pushed(states, labels, n - 1) + PushedAt(states[n - 1], labels[n - 1], states[n])
  }

  /** In every run the poller pushes exactly the rows its commits hand it, in the order of the selects. */
  lemma {:induction false} PollerPushesInOrder(states: seq<State>, labels: seq<Label>, n: nat)
    requires Run(states, labels) && n < |states|
    ensures Handed(states, labels, n) == Pushed(states, labels, n) + Batched(states[n])
  {
    hide Inv, Enabled, Next, HandedAt, PushedAt, Batched;
    if n == 0 {
      NoBatch();
    } else {
      PollerPushesInOrder(states, labels, n - 1);
      var s, l := states[n - 1], labels[n - 1];
      assert Enabled(s, l) && states[n - 1 + 1] == Next(s, l);
      RunInv(states, labels, n - 1);
      BatchStep(s, l);
      Regroup(Pushed(states, labels, n - 1), Batched(s), HandedAt(s, l), PushedAt(s, l, states[n]), Batched(states[n]));
    }
  }

  lemma NoBatch()
    ensures Batched(Init()) == []
  {
  }

  // ---- Reports ----

  /** Thread t is posting a result. */
  predicate Posting(pc: PC) { pc.Running? && (pc.step.PostWant? || pc.step.PostHold?) }

  /** Step m is the report of solution sid with this code by the client of t, and t has done nothing
      since but ask for the database mutex. */
  ghost predicate ReportedAt(states: seq<State>, labels: seq<Label>, t: Tid, sid: SolutionId, code: nat, m: nat, n: nat)
    requires n <= |labels| && |states| == |labels| + 1
  {
    && m < n && labels[m] == Act(t, Report(sid, code)) && t in states[m].threads && states[m].threads[t] == Running(Idle)
    && forall j | m < j < n :: !(labels[j].Act? && labels[j].t == t)
  }

  lemma PostingStep(s: State, l: Label, t: Tid)
    requires Enabled(s, l) && t in Next(s, l).threads && Posting(Next(s, l).threads[t])
    ensures t in s.threads
    ensures var step := Next(s, l).threads[t].step;
            || (l == Act(t, Report(step.sid, step.code)) && s.threads[t] == Running(Idle))
            || (&& Posting(s.threads[t]) && s.threads[t].step.sid == step.sid && s.threads[t].step.code == step.code
                && !(l.Act? && l.t == t))
  {
    hide ObjsAfter, StatusAfter, UndoAfter, LocAfter, ListsAfter, ClientsAfter, Held;
    if l.Act? && l.t == t { PostingAct(s, t, l.c); }
  }

  lemma PostingAct(s: State, t: Tid, c: Choice)
    requires Enabled(s, Act(t, c))
    ensures var pc := Decide(s, t, s.threads[t], c).0;
            Posting(pc) ==> c == Report(pc.step.sid, pc.step.code) && s.threads[t] == Running(Idle)
  {
    hide Held;
    match s.threads[t]
    case Entering(_, _) =>
    case Running(_) =>
    case Removing(_) =>
    case Poll(_) =>
    case Push(_, _, _, stage) =>
  }

  /** In every run a thread posts a result only as its client reported it: the id and the code are those
      of the report that made it post. */
  lemma {:induction false} PostsAsReported(states: seq<State>, labels: seq<Label>, n: nat, t: Tid) returns (m: nat)
    requires Run(states, labels) && n < |states| && t in states[n].threads && Posting(states[n].threads[t])
    ensures var step := states[n].threads[t].step; ReportedAt(states, labels, t, step.sid, step.code, m, n)
  {
    hide Enabled, Next;
    assert n > 0;
    var s, l := states[n - 1], labels[n - 1];
    assert Enabled(s, l) && states[n - 1 + 1] == Next(s, l);
    PostingStep(s, l, t);
    var step := states[n].threads[t].step;
    if l == Act(t, Report(step.sid, step.code)) && s.threads[t] == Running(Idle) {
      m := n - 1;
    } else {
      m := PostsAsReported(states, labels, n - 1, t);
    }
  }
}
