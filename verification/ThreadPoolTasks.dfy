/** The life of a task: it is popped once, by the worker that then calls its function once and frees
    it. */
module ThreadPoolTasks {
  import opened ThreadPool

  /** Step q takes task t off the queue, by worker w. */
  ghost predicate PopsAt(states: seq<State>, labels: seq<Label>, t: Task, w: Id, q: nat) {
    && q < |labels| < |states| && labels[q] == Work(w) && w in states[q].workers && states[q].workers[w].Popping?
    && states[q].queue != [] && states[q].queue[0] == t
  }

  /** Step q is worker w's call of task_func for t. */
  ghost predicate RunsAt(states: seq<State>, labels: seq<Label>, t: Task, w: Id, q: nat) {
    q < |labels| < |states| && labels[q] == Work(w) && w in states[q].workers && states[q].workers[w] == Running(t)
  }

  /** Before state i task t has been neither popped nor run. */
  ghost predicate Untouched(states: seq<State>, labels: seq<Label>, i: nat, t: Task) {
    && (forall v: Id, q: nat | q < i :: !PopsAt(states, labels, t, v, q))
    && (forall v: Id, q: nat | q < i :: !RunsAt(states, labels, t, v, q))
  }

  /** Before state i task t has been popped once, at step p by w, and not run. */
  ghost predicate PoppedOnce(states: seq<State>, labels: seq<Label>, i: nat, t: Task, w: Id, p: nat) {
    && p < i && PopsAt(states, labels, t, w, p)
    && (forall v: Id, q: nat | q < i && PopsAt(states, labels, t, v, q) :: v == w && q == p)
    && (forall v: Id, q: nat | q < i :: !RunsAt(states, labels, t, v, q))
  }

  /** Before state i task t has been popped once, at step p by w, and run once, at step j by the same w. */
  ghost predicate RunOnce(states: seq<State>, labels: seq<Label>, i: nat, t: Task, w: Id, p: nat, j: nat) {
    && p < j < i && PopsAt(states, labels, t, w, p) && RunsAt(states, labels, t, w, j)
    && (forall v: Id, q: nat | q < i && PopsAt(states, labels, t, v, q) :: v == w && q == p)
    && (forall v: Id, q: nat | q < i && RunsAt(states, labels, t, v, q) :: v == w && q == j)
  }

  ghost predicate IsPopped(states: seq<State>, labels: seq<Label>, i: nat, t: Task, w: Id) {
    exists p: nat :: PoppedOnce(states, labels, i, t, w, p)
  }

  ghost predicate HasRun(states: seq<State>, labels: seq<Label>, i: nat, t: Task, w: Id) {
    exists p: nat, j: nat :: RunOnce(states, labels, i, t, w, p, j)
  }

  predicate Before(pc: Worker, t: Task) { pc == Unlocking(t) || pc == Starting(t) || pc == Running(t) }

  predicate Afterwards(pc: Worker, t: Task) { pc == FreeLocking(t) || pc == Freeing(t) }

  ghost predicate Tale(states: seq<State>, labels: seq<Label>, i: nat, t: Task)
    requires i < |states|
  {
    var s := states[i];
    && (t >= Popped(s) ==> Untouched(states, labels, i, t))
    && (forall w | w in s.workers && Before(s.workers[w], t) :: IsPopped(states, labels, i, t, w))
    && (forall w | w in s.workers && Afterwards(s.workers[w], t) :: HasRun(states, labels, i, t, w))
    && (t in s.finished ==> exists w :: HasRun(states, labels, i, t, w))
  }

  // ---- One step ----

  ghost predicate Quiet(states: seq<State>, labels: seq<Label>, i: nat, t: Task) {
    forall v: Id :: !PopsAt(states, labels, t, v, i) && !RunsAt(states, labels, t, v, i)
  }

  lemma QuietKeeps(states: seq<State>, labels: seq<Label>, i: nat, t: Task)
    requires Quiet(states, labels, i, t)
    ensures Untouched(states, labels, i, t) ==> Untouched(states, labels, i + 1, t)
    ensures forall w :: IsPopped(states, labels, i, t, w) ==> IsPopped(states, labels, i + 1, t, w)
    ensures forall w :: HasRun(states, labels, i, t, w) ==> HasRun(states, labels, i + 1, t, w)
  {
    hide PopsAt, RunsAt;
    var n := i + 1;
    forall w | IsPopped(states, labels, i, t, w) ensures IsPopped(states, labels, n, t, w) {
      var p: nat :| PoppedOnce(states, labels, i, t, w, p);
      assert PoppedOnce(states, labels, n, t, w, p);
    }
    forall w | HasRun(states, labels, i, t, w) ensures HasRun(states, labels, n, t, w) {
      var p: nat, j: nat :| RunOnce(states, labels, i, t, w, p, j);
      assert RunOnce(states, labels, n, t, w, p, j);
    }
  }

  lemma PopStarts(states: seq<State>, labels: seq<Label>, i: nat, t: Task, w: Id)
    requires Untouched(states, labels, i, t) && PopsAt(states, labels, t, w, i)
    ensures IsPopped(states, labels, i + 1, t, w)
  {
    assert PoppedOnce(states, labels, i + 1, t, w, i);
  }

  lemma RunFollows(states: seq<State>, labels: seq<Label>, i: nat, t: Task, w: Id)
    requires IsPopped(states, labels, i, t, w) && RunsAt(states, labels, t, w, i)
    ensures HasRun(states, labels, i + 1, t, w)
  {
    var p: nat :| PoppedOnce(states, labels, i, t, w, p);
    assert RunOnce(states, labels, i + 1, t, w, p, i);
  }

  /** What a worker's step does with tasks. */
  lemma WorkMoves(s: State, w: Id)
    requires SeenOk(s) && QueueOk(s) && WorkerCan(s, w)
    ensures var s', pc, pc' := DoWork(s, w), s.workers[w], DoWork(s, w).workers[w];
            && s'.workers == s.workers[w := pc']
            && Popped(s') == Popped(s) + (if pc.Popping? then 1 else 0)
            && (pc.Popping? ==> s.queue != [] && s.queue[0] == Popped(s))
            && (forall t :: Before(pc', t) ==> (if pc.Popping? then t == Popped(s) else Before(pc, t) && !pc.Running?))
            && (forall t :: Afterwards(pc', t) ==> Afterwards(pc, t) || pc == Running(t))
            && (forall t | t in s'.finished :: t in s.finished || pc == Freeing(t))
  {
  }

  /** The steps of others leave tasks alone. */
  lemma OthersMove(s: State, l: Label)
    requires QueueOk(s) && Enabled(s, l) && !l.Work?
    ensures var s' := Do(s, l);
            && s'.workers.Keys == s.workers.Keys && s'.finished == s.finished && Popped(s') == Popped(s)
            && forall w, t | w in s'.workers :: (Before(s'.workers[w], t) ==> Before(s.workers[w], t)) && (Afterwards(s'.workers[w], t) ==> Afterwards(s.workers[w], t))
  {
  }

  lemma OthersTale(states: seq<State>, labels: seq<Label>, i: nat, t: Task)
    requires i < |labels| && |states| == |labels| + 1 && Tale(states, labels, i, t) && QueueOk(states[i])
    requires Enabled(states[i], labels[i]) && states[i + 1] == Do(states[i], labels[i]) && !labels[i].Work?
    ensures Tale(states, labels, i + 1, t)
  {
    hide Untouched, IsPopped, HasRun, Enabled, Do, Popped, QueueOk;
    OthersMove(states[i], labels[i]);
    QuietKeeps(states, labels, i, t);
  }

  lemma WorkTale(states: seq<State>, labels: seq<Label>, i: nat, t: Task, w: Id)
    requires i < |labels| && |states| == |labels| + 1 && Tale(states, labels, i, t) && Inv(states[i])
    requires labels[i] == Work(w) && w in states[i].workers && WorkerCan(states[i], w) && states[i + 1] == DoWork(states[i], w)
    ensures Tale(states, labels, i + 1, t)
  {
    hide Untouched, IsPopped, HasRun, Popped, DoWork, WorkerCan, MutexOk, CancelOk, WakeOk, CarriedOk, QuietOk, SeenOk, QueueOk;
    var s, s' := states[i], states[i + 1];
    var pc := s.workers[w];
    WorkMoves(s, w);
    if pc.Popping? && Popped(s) == t {
      PopStarts(states, labels, i, t, w);
    } else if pc == Running(t) {
      RunFollows(states, labels, i, t, w);
    } else {
      QuietKeeps(states, labels, i, t);
    }
  }

  lemma {:induction false} RunTale(states: seq<State>, labels: seq<Label>, ids: set<Id>, i: nat, t: Task)
    requires IsRun(states, labels) && states[0] == Init(ids) && i <= |labels|
    ensures Tale(states, labels, i, t)
  {
    hide Inv, Enabled, Do, Tale;
    if i == 0 {
      NoTale(states, labels, ids, t);
    } else {
      RunTale(states, labels, ids, i - 1, t);
      RunInv(states, labels, ids, i - 1);
      var s, l := states[i - 1], labels[i - 1];
      assert Enabled(s, l) && states[i - 1 + 1] == Do(s, l);
      InvQueue(s);
      if l.Work? { Works(s, l.w); WorkTale(states, labels, i - 1, t, l.w); } else { OthersTale(states, labels, i - 1, t); }
    }
  }

  lemma InvQueue(s: State)
    requires Inv(s)
    ensures QueueOk(s)
  {
  }

  lemma Works(s: State, w: Id)
    requires Enabled(s, Work(w))
    ensures w in s.workers && WorkerCan(s, w) && Do(s, Work(w)) == DoWork(s, w)
  {
  }

  lemma NoTale(states: seq<State>, labels: seq<Label>, ids: set<Id>, t: Task)
    requires |states| > 0 && states[0] == Init(ids)
    ensures Tale(states, labels, 0, t)
  {
  }

  /** In every run: a task that is done has been popped exactly once and, after that and by the same
      worker, its function has been called exactly once; one still in the queue, or not yet pushed,
      neither. */
  lemma EachTaskRunsOnce(states: seq<State>, labels: seq<Label>, ids: set<Id>, i: nat, t: Task)
    requires IsRun(states, labels) && states[0] == Init(ids) && i <= |labels|
    ensures t in states[i].finished ==> exists w: Id, p: nat, j: nat :: RunOnce(states, labels, i, t, w, p, j)
    ensures t >= states[i].pushed || t in states[i].queue ==> Untouched(states, labels, i, t)
  {
    hide Enabled, Do, MutexOk, CancelOk, WakeOk, CarriedOk, QuietOk, SeenOk, HeldOk, RunOnce, Untouched;
    RunTale(states, labels, ids, i, t);
    RunInv(states, labels, ids, i);
    if t in states[i].finished {
      var w :| HasRun(states, labels, i, t, w);
      var p: nat, j: nat :| RunOnce(states, labels, i, t, w, p, j);
    }
  }

  /** No task is run twice, or by two workers, whether or not it is done yet. */
  lemma NoTaskRunsTwice(states: seq<State>, labels: seq<Label>, ids: set<Id>, t: Task, v: Id, w: Id, p: nat, q: nat)
    requires IsRun(states, labels) && states[0] == Init(ids) && RunsAt(states, labels, t, v, p) && RunsAt(states, labels, t, w, q)
    ensures v == w && p == q
  {
    hide Inv, Enabled, Do;
    var last, worker := if p < q then q else p, if p < q then w else v;
    RunTale(states, labels, ids, last, t);
    assert Before(states[last].workers[worker], t);
    assert IsPopped(states, labels, last, t, worker);
    var r: nat :| PoppedOnce(states, labels, last, t, worker, r);
  }

  /** destroy_thread_pool returns only when every worker has left. */
  lemma {:induction false} JoinedMeansExited(states: seq<State>, labels: seq<Label>, ids: set<Id>, i: nat, w: Id)
    requires IsRun(states, labels) && states[0] == Init(ids) && i <= |labels|
    requires states[i].destroyer.DJoined? && w in states[i].workers
    ensures states[i].workers[w].Exited?
  {
    hide Enabled, Do;
    assert i > 0;
    var s, l := states[i - 1], labels[i - 1];
    assert Enabled(s, l) && states[i - 1 + 1] == Do(s, l);
    JoinStep(s, l);
    if s.destroyer.DJoined? { JoinedMeansExited(states, labels, ids, i - 1, w); }
  }

  lemma JoinStep(s: State, l: Label)
    requires Enabled(s, l) && Do(s, l).destroyer.DJoined?
    ensures Do(s, l).workers.Keys == s.workers.Keys
    ensures if s.destroyer.DJoined? then forall w | w in s.workers && s.workers[w].Exited? :: Do(s, l).workers[w].Exited?
            else forall w | w in s.workers :: Do(s, l).workers[w].Exited?
  {
  }

  // ---- Calls of thread_pool_execute ----

  /** Step l starts a call by p. */
  function CallAt(l: Label, p: Id): nat { if l == Call(p) then 1 else 0 }

  /** Step l is p's push. */
  function PushAt(s: State, l: Label, p: Id): nat {
    if l.Produce? && l.p == p && p in s.producers && s.producers[p].PPushing? then 1 else 0
  }

  /** The calls that p has made before state i. */
  ghost function Calls(labels: seq<Label>, p: Id, i: nat): nat
    requires i <= |labels|
  {
    if i == 0 then 0 else Calls(labels, p, i - 1) + CallAt(labels[i - 1], p)
  }

  /** The tasks that p has pushed before state i. */
  ghost function Pushes(states: seq<State>, labels: seq<Label>, p: Id, i: nat): nat
    requires i <= |labels| && |states| == |labels| + 1
  {
    if i == 0 then 0 else Pushes(states, labels, p, i - 1) + PushAt(states[i - 1], labels[i - 1], p)
  }

  /** p is inside a call and has yet to push. */
  predicate YetToPush(s: State, p: Id) { p in s.producers && (s.producers[p].PLocking? || s.producers[p].PPushing?) }

  lemma CallStep(s: State, l: Label, p: Id)
    requires Enabled(s, l)
    ensures var s' := Do(s, l);
            CallAt(l, p) + (if YetToPush(s, p) then 1 else 0) == PushAt(s, l, p) + if YetToPush(s', p) then 1 else 0
  {
  }

  /** In every run every call of thread_pool_execute pushes exactly one task before it returns. */
  lemma {:induction false} EachCallPushesOnce(states: seq<State>, labels: seq<Label>, ids: set<Id>, i: nat, p: Id)
    requires IsRun(states, labels) && states[0] == Init(ids) && i <= |labels|
    ensures Calls(labels, p, i) == Pushes(states, labels, p, i) + if YetToPush(states[i], p) then 1 else 0
  {
    hide Enabled, Do, CallAt, PushAt, YetToPush;
    if i == 0 {
      NoCalls(ids, p);
    } else {
      EachCallPushesOnce(states, labels, ids, i - 1, p);
      assert Enabled(states[i - 1], labels[i - 1]) && states[i - 1 + 1] == Do(states[i - 1], labels[i - 1]);
      CallStep(states[i - 1], labels[i - 1], p);
    }
  }

  lemma NoCalls(ids: set<Id>, p: Id)
    ensures !YetToPush(Init(ids), p)
  {
  }

  /** A task is pushed at the end of the queue, and its number is that of the pushes before it. */
  lemma PushStep(s: State, l: Label)
    requires Enabled(s, l)
    ensures var s' := Do(s, l);
            if l.Produce? && s.producers[l.p].PPushing? then s'.pushed == s.pushed + 1 && s'.queue == s.queue + [s.pushed]
            else s'.pushed == s.pushed
  {
  }

  ghost predicate IsPush(s: State, l: Label) { l.Produce? && l.p in s.producers && s.producers[l.p].PPushing? }

  /** The steps before state i that push, in order. */
  ghost function PushSteps(states: seq<State>, labels: seq<Label>, i: nat): seq<nat>
    requires i <= |labels| && |states| == |labels| + 1
  {
    if i == 0 then [] else PushSteps(states, labels, i - 1) + if IsPush(states[i - 1], labels[i - 1]) then [i - 1] else []
  }

  /** In every run the tasks are the pushes, numbered in their order. */
  lemma {:induction false} TasksAreThePushes(states: seq<State>, labels: seq<Label>, ids: set<Id>, i: nat)
    requires IsRun(states, labels) && states[0] == Init(ids) && i <= |labels|
    ensures states[i].pushed == |PushSteps(states, labels, i)|
    ensures forall t | 0 <= t < |PushSteps(states, labels, i)| :: PushesTask(states, labels, PushSteps(states, labels, i)[t], t)
  {
    hide Enabled, Do, IsPush, PushesTask;
    if i > 0 {
      TasksAreThePushes(states, labels, ids, i - 1);
      assert Enabled(states[i - 1], labels[i - 1]) && states[i - 1 + 1] == Do(states[i - 1], labels[i - 1]);
      NextPush(states, labels, i - 1);
    }
  }

  /** Step j pushes task t. */
  ghost predicate PushesTask(states: seq<State>, labels: seq<Label>, j: nat, t: nat) {
    j < |labels| < |states| && IsPush(states[j], labels[j]) && states[j + 1].queue == states[j].queue + [t]
  }

  lemma NextPush(states: seq<State>, labels: seq<Label>, i: nat)
    requires i < |labels| && |states| == |labels| + 1 && Enabled(states[i], labels[i]) && states[i + 1] == Do(states[i], labels[i])
    ensures IsPush(states[i], labels[i]) ==> PushesTask(states, labels, i, states[i].pushed) && states[i + 1].pushed == states[i].pushed + 1
    ensures !IsPush(states[i], labels[i]) ==> states[i + 1].pushed == states[i].pushed
  {
    hide Enabled, Do;
    Producing(states[i], labels[i]);
    PushStep(states[i], labels[i]);
  }

  lemma Producing(s: State, l: Label)
    requires Enabled(s, l)
    ensures l.Produce? ==> l.p in s.producers
  {
  }
}
