/** What the thread pool promises over whole runs: no wakeup is lost, no task is lost or run
    twice, an idle pool is really idle, and destruction stops the workers. */
module ThreadPoolRuns {
  import opened ThreadPool

  /** While a worker sleeps and the pool is not cancelled, there is a woken worker for every
      queued task, save one whose producer still holds the mutex before its signal. */
  lemma NoLostWakeups(states: seq<State>, labels: seq<Label>, ids: set<Id>, i: nat)
    requires IsRun(states, labels) && states[0] == Init(ids) && i <= |labels|
    ensures var s := states[i];
            Sleepers(s) != {} && !s.cancelled ==>
              |s.queue| <= |DueSet(s)| + if exists p | p in s.producers :: s.producers[p].PSignalling? then 1 else 0
  {
    hide QueueOk, HeldOk, CarriedOk, QuietOk, SeenOk;
    RunInv(states, labels, ids, i);
  }

  /** queue_pop in thread_exec never finds the queue empty. */
  lemma PopsFindATask(states: seq<State>, labels: seq<Label>, ids: set<Id>, i: nat, w: Id)
    requires IsRun(states, labels) && states[0] == Init(ids) && i <= |labels|
    requires w in states[i].workers && states[i].workers[w].Popping?
    ensures states[i].queue != []
    ensures i < |labels| && labels[i] == Work(w) ==> states[i + 1].workers[w] == Unlocking(states[i].queue[0])
  {
    hide QueueOk, HeldOk, CarriedOk, QuietOk, MutexOk, WakeOk;
    RunInv(states, labels, ids, i);
    if i < |labels| { assert Enabled(states[i], labels[i]) && states[i + 1] == Do(states[i], labels[i]); }
  }

  /** Task t is with exactly one worker. */
  ghost predicate WithOne(s: State, t: Task) {
    exists w | w in s.workers :: HasTask(s.workers[w]) && s.workers[w].task == t
      && forall v | v in s.workers && HasTask(s.workers[v]) && s.workers[v].task == t :: v == w
  }

  /** Every task pushed is queued, with exactly one worker, or done, and never two of these:
      tasks are started in the order of their pushes, none twice, none forgotten. */
  lemma TasksConserved(states: seq<State>, labels: seq<Label>, ids: set<Id>, i: nat, t: Task)
    requires IsRun(states, labels) && states[0] == Init(ids) && i <= |labels| && t < states[i].pushed
    ensures var s := states[i];
            && (t in s.queue <==> t >= Popped(s))
            && (t in s.finished ==> t < Popped(s) && !Carried(s, t))
            && (t < Popped(s) && t !in s.finished ==> WithOne(s, t))
            && (Carried(s, t) ==> t < Popped(s))
  {
    hide MutexOk, SeenOk, WakeOk, QuietOk, CancelOk;
    RunInv(states, labels, ids, i);
    var s := states[i];
    if t >= Popped(s) { assert s.queue[t - Popped(s)] == t; }
    if t < Popped(s) && t !in s.finished {
      assert Carried(s, t);
      var w :| w in s.workers && HasTask(s.workers[w]) && s.workers[w].task == t;
    }
  }

  /** Nobody can move but by a spurious wakeup, a new call or a first call of destroy. */
  ghost predicate Stuck(s: State) {
    forall l | Enabled(s, l) :: l.Spurious? || l.Call? || (l.Destroy? && s.destroyer.DIdle?)
  }

  /** A live pool with every worker asleep and, if there are workers, nothing queued. */
  ghost predicate Resting(s: State) {
    && s.destroyer.DIdle?
    && (forall w | w in s.workers :: s.workers[w].Asleep?)
    && (s.workers.Keys != {} ==> s.queue == [])
  }

  /** Whoever holds a mutex can move. */
  lemma HolderCanMove(s: State) returns (l: Label)
    requires Inv(s) && !(s.mutex.Nobody? && s.mutexFree.Nobody?)
    ensures Enabled(s, l) && (l.Work? || l.Produce? || (l.Destroy? && !s.destroyer.DIdle?))
  {
    hide QueueOk, HeldOk, CarriedOk, QuietOk, WakeOk, SeenOk, CancelOk;
    l := match s.mutex
      case Nobody => Work(s.mutexFree.w)
      case ByWorker(w) => Work(w)
      case ByProducer(p) => Produce(p, Sleepers(s))
      case ByDestroyer => Destroy;
  }

  /** No deadlock and no forgotten work: where nobody can move, either the pool is alive with
      every worker asleep, no call half done and nothing queued, or it has been destroyed and
      every worker has exited. */
  lemma StuckMeansIdle(states: seq<State>, labels: seq<Label>, ids: set<Id>, i: nat)
    requires IsRun(states, labels) && states[0] == Init(ids) && i <= |labels| && Stuck(states[i])
    ensures var s := states[i];
            && (forall p | p in s.producers :: s.producers[p].PDone?)
            && (Resting(s) || (s.destroyer.DJoined? && forall w | w in s.workers :: s.workers[w].Exited?))
  {
    hide QueueOk, HeldOk, CarriedOk, SeenOk;
    var s := states[i];
    RunInv(states, labels, ids, i);
    if !(s.mutex.Nobody? && s.mutexFree.Nobody?) {
      var l := HolderCanMove(s);
      assert false;
    }
    forall w | w in s.workers ensures s.workers[w].Asleep? || s.workers[w].Exited? {
      assert !Enabled(s, Work(w));
    }
    forall p | p in s.producers ensures s.producers[p].PDone? {
      assert !Enabled(s, Produce(p, Sleepers(s)));
    }
    assert !s.destroyer.DIdle? ==> !Enabled(s, Destroy);
    assert DueSet(s) == {};
    assert s.workers.Keys != {} && s.destroyer.DIdle? ==> Sleepers(s) == s.workers.Keys;
  }

  // ---- Destruction ----

  /** How many more steps a worker can take once the broadcast is over. */
  function Rank(pc: Worker): nat {
    match pc
    case Exited => 0
    case Leaving => 1
    case Checking => 1
    case Deciding(_) => 2
    case Freeing(_) => 2
    case Testing(_) => 3
    case FreeLocking(_) => 3
    case Locking => 4
    case Woken => 4
    case Running(_) => 4
    case Starting(_) => 5
    case _ => 6
  }

  /** A step after the broadcast: the stepping worker gets nearer to its exit, the others stay,
      and nobody takes another task. */
  lemma QuietStep(s: State, l: Label, w: Id)
    requires Inv(s) && BroadcastDone(s) && Enabled(s, l) && w in s.workers
    ensures var s' := Do(s, l);
            && BroadcastDone(s') && Popped(s') == Popped(s) && s'.workers.Keys == s.workers.Keys
            && (if l == Work(w) then Rank(s'.workers[w]) < Rank(s.workers[w]) else s'.workers[w] == s.workers[w])
            && (HasTask(s'.workers[w]) ==> HasTask(s.workers[w]) && s'.workers[w].task == s.workers[w].task)
  {
    hide MutexOk, HeldOk, CarriedOk, WakeOk, SeenOk;
  }

  function StepsOf(labels: seq<Label>, w: Id): nat {
    if labels == [] then 0
    else StepsOf(labels[..|labels| - 1], w) + if labels[|labels| - 1] == Work(w) then 1 else 0
  }

  /** After destroy's broadcast no worker sleeps, none takes a new task, each finishes at most
      the task it already had, and each takes at most five more steps. */
  lemma {:induction false} DestroyStopsWorkers(states: seq<State>, labels: seq<Label>, ids: set<Id>, i: nat, j: nat, w: Id)
    requires IsRun(states, labels) && states[0] == Init(ids) && i <= j <= |labels|
    requires BroadcastDone(states[i]) && w in states[i].workers
    ensures var s, s' := states[i], states[j];
            && BroadcastDone(s') && w in s'.workers && Popped(s') == Popped(s)
            && !s'.workers[w].Asleep? && !s'.workers[w].Parking?
            && (HasTask(s'.workers[w]) ==> HasTask(s.workers[w]) && s'.workers[w].task == s.workers[w].task)
            && StepsOf(labels[i..j], w) + Rank(s'.workers[w]) <= Rank(s.workers[w]) <= 5
    decreases j
  {
    hide Enabled, Do, Popped, Rank, Inv, BroadcastDone;
    if i == j {
      assert labels[i..j] == [];
      RunInv(states, labels, ids, i);
      RankBound(states[i], w);
    } else {
      DestroyStopsWorkers(states, labels, ids, i, j - 1, w);
      RunInv(states, labels, ids, j - 1);
      RunInv(states, labels, ids, j);
      assert Enabled(states[j - 1], labels[j - 1]) && states[j - 1 + 1] == Do(states[j - 1], labels[j - 1]);
      QuietStep(states[j - 1], labels[j - 1], w);
      assert labels[i..j][..j - 1 - i] == labels[i..j - 1];
      RankBound(states[j], w);
    }
  }

  lemma RankBound(s: State, w: Id)
    requires Inv(s) && BroadcastDone(s) && w in s.workers
    ensures Rank(s.workers[w]) <= 5 && !s.workers[w].Asleep? && !s.workers[w].Parking?
  {
  }
}
