/** The thread pool of thread_pool.c as a monitor: any number of workers and producers, one
    destroyer, one mutex and one condition variable with spurious wakeups. Steps are single
    accesses to shared state, so a worker can be overtaken between any two of them. A task is
    named by its position in the order of the pushes. */
module ThreadPool {

  type Id = nat
  type Task = nat

  /** thread_exec. `woke` tells whether the worker last came out of pthread_cond_wait. */
  datatype Worker =
    | Checking                      // while(!pool->cancelled)
    | Locking
    | Testing(woke: bool)           // while(!cancelled && elems_count == 0), mutex held
    | Parking                       // about to wait, mutex held
    | Asleep                        // in pthread_cond_wait, mutex released
    | Woken                         // woken, still to take the mutex again
    | Deciding(woke: bool)          // if(pool->cancelled), mutex held
    | Popping(woke: bool)           // queue_pop, mutex held
    | Unlocking(task: Task)         // mutex held
    | Starting(task: Task)
    | Running(task: Task)
    | FreeLocking(task: Task)
    | Freeing(task: Task)           // mutex_free held
    | Leaving                       // unlock and return, mutex held
    | Exited

  /** thread_pool_execute */
  datatype Producer = PLocking | PPushing | PSignalling | PUnlocking | PDone

  /** destroy_thread_pool */
  datatype Destroyer = DIdle | DLocking | DBroadcasting | DUnlocking | DJoining | DJoined

  datatype Owner = Nobody | ByWorker(w: Id) | ByProducer(p: Id) | ByDestroyer

  datatype State = State(
    workers: map<Id, Worker>,
    producers: map<Id, Producer>,
    destroyer: Destroyer,
    cancelled: bool,
    queue: seq<Task>,
    mutex: Owner,
    mutexFree: Owner,
    pushed: nat,
    finished: set<Task>)

  datatype Label =
    | Work(w: Id)
    | Spurious(w: Id)
    | Call(p: Id)                       // a new call of thread_pool_execute
    | Produce(p: Id, wake: set<Id>)     // `wake`: who a signal wakes
    | Destroy

  function Init(ids: set<Id>): State {
    State(map w | w in ids :: Checking, map[], DIdle, false, [], Nobody, Nobody, 0, {})
  }

  // ---- Steps ----

  function Sleepers(s: State): set<Id> { set w | w in s.workers && s.workers[w].Asleep? }

  function Wake(workers: map<Id, Worker>, ids: set<Id>): map<Id, Worker> {
    map w | w in workers :: if w in ids && workers[w].Asleep? then Woken else workers[w]
  }

  /** POSIX: a signal wakes at least one sleeper if there is one. */
  ghost predicate Signals(s: State, wake: set<Id>) {
    wake <= Sleepers(s) && (Sleepers(s) != {} ==> wake != {})
  }

  ghost predicate WorkerCan(s: State, w: Id) {
    && w in s.workers
    && match s.workers[w]
       case Locking => s.mutex.Nobody?
       case Woken => s.mutex.Nobody?
       case Asleep => false
       case FreeLocking(_) => s.mutexFree.Nobody?
       case Exited => false
       case _ => true
  }

  /** The worker's next place. */
  function WorkerNext(s: State, pc: Worker): Worker {
    match pc
    case Checking => if s.cancelled then Exited else Locking
    case Locking => Testing(false)
    case Testing(woke) => if !s.cancelled && s.queue == [] then Parking else Deciding(woke)
    case Parking => Asleep
    case Asleep => Asleep
    case Woken => Testing(true)
    case Deciding(woke) => if s.cancelled then Leaving else Popping(woke)
    case Popping(_) => Unlocking(if s.queue != [] then s.queue[0] else 0)
    case Unlocking(task) => Starting(task)
    case Starting(task) => Running(task)
    case Running(task) => FreeLocking(task)
    case FreeLocking(task) => Freeing(task)
    case Freeing(_) => Checking
    case Leaving => Exited
    case Exited => Exited
  }

  /** The places that hold the mutex. */
  predicate InMonitor(pc: Worker) {
    pc.Testing? || pc.Parking? || pc.Deciding? || pc.Popping? || pc.Unlocking? || pc.Leaving?
  }

  function DoWork(s: State, w: Id): State
    requires w in s.workers
  {
    var pc := s.workers[w];
    var pc' := WorkerNext(s, pc);
    s.(workers := s.workers[w := pc'],
       mutex := if InMonitor(pc') then ByWorker(w) else if InMonitor(pc) then Nobody else s.mutex,
       mutexFree := if pc'.Freeing? then ByWorker(w) else if pc.Freeing? then Nobody else s.mutexFree,
       queue := if pc.Popping? && s.queue != [] then s.queue[1..] else s.queue,
       finished := if pc.Freeing? then s.finished + {pc.task} else s.finished)
  }

  ghost predicate Enabled(s: State, l: Label) {
    match l
    case Work(w) => WorkerCan(s, w)
    case Spurious(w) => w in s.workers && s.workers[w].Asleep?
    case Call(p) => p !in s.producers || s.producers[p].PDone?
    case Produce(p, wake) =>
      && p in s.producers && !s.producers[p].PDone?
      && (s.producers[p].PLocking? ==> s.mutex.Nobody?)
      && (s.producers[p].PSignalling? ==> Signals(s, wake))
    case Destroy =>
      match s.destroyer
      case DLocking => s.mutex.Nobody?
      case DJoining => forall w | w in s.workers :: s.workers[w].Exited?
      case DJoined => false
      case _ => true
  }

  function DoProduce(s: State, p: Id, wake: set<Id>): State
    requires p in s.producers
  {
    match s.producers[p]
    case PLocking => s.(producers := s.producers[p := PPushing], mutex := ByProducer(p))
    case PPushing => s.(producers := s.producers[p := PSignalling], queue := s.queue + [s.pushed], pushed := s.pushed + 1)
    case PSignalling => s.(producers := s.producers[p := PUnlocking], workers := Wake(s.workers, wake))
    case PUnlocking => s.(producers := s.producers[p := PDone], mutex := Nobody)
    case PDone => s
  }

  function DoDestroy(s: State): State {
    match s.destroyer
    case DIdle => s.(destroyer := DLocking, cancelled := true)
    case DLocking => s.(destroyer := DBroadcasting, mutex := ByDestroyer)
    case DBroadcasting => s.(destroyer := DUnlocking, workers := Wake(s.workers, s.workers.Keys))
    case DUnlocking => s.(destroyer := DJoining, mutex := Nobody)
    case DJoining => s.(destroyer := DJoined)
    case DJoined => s
  }

  ghost function Do(s: State, l: Label): State
    requires Enabled(s, l)
  {
    match l
    case Work(w) => DoWork(s, w)
    case Spurious(w) => s.(workers := s.workers[w := Woken])
    case Call(p) => s.(producers := s.producers[p := PLocking])
    case Produce(p, wake) => DoProduce(s, p, wake)
    case Destroy => DoDestroy(s)
  }

  ghost predicate IsRun(states: seq<State>, labels: seq<Label>) {
    && |states| == |labels| + 1
    && forall i | 0 <= i < |labels| :: Enabled(states[i], labels[i]) && states[i + 1] == Do(states[i], labels[i])
  }

  // ---- The invariant ----

  /** Each mutex is held by exactly the thread whose place says so. */
  ghost predicate MutexOk(s: State) {
    && (forall w | w in s.workers :: InMonitor(s.workers[w]) <==> s.mutex == ByWorker(w))
    && (forall w | w in s.workers :: s.workers[w].Freeing? <==> s.mutexFree == ByWorker(w))
    && (forall p | p in s.producers ::
          s.producers[p].PPushing? || s.producers[p].PSignalling? || s.producers[p].PUnlocking? <==> s.mutex == ByProducer(p))
    && (s.destroyer.DBroadcasting? || s.destroyer.DUnlocking? <==> s.mutex == ByDestroyer)
    && (s.mutex.ByWorker? ==> s.mutex.w in s.workers)
    && (s.mutex.ByProducer? ==> s.mutex.p in s.producers)
    && (s.mutexFree.Nobody? || (s.mutexFree.ByWorker? && s.mutexFree.w in s.workers))
  }

  ghost predicate CancelOk(s: State) {
    && (s.cancelled <==> !s.destroyer.DIdle?)
    && forall w | w in s.workers && (s.workers[w].Leaving? || s.workers[w].Exited?) :: s.cancelled
  }

  /** What a worker inside the monitor has seen is still so. */
  ghost predicate SeenOk(s: State) {
    forall w | w in s.workers ::
      && (s.workers[w].Parking? ==> s.queue == [])
      && (s.workers[w].Deciding? && !s.cancelled ==> s.queue != [])
      && (s.workers[w].Popping? ==> s.queue != [])
  }

  /** Workers that were woken and have yet to take a task or go back to sleep. */
  predicate Due(pc: Worker) {
    pc.Woken? || (pc.Testing? && pc.woke) || (pc.Deciding? && pc.woke) || (pc.Popping? && pc.woke)
  }

  function DueSet(s: State): set<Id> { set w | w in s.workers && Due(s.workers[w]) }

  /** A task that was pushed and whose signal is still to come. */
  ghost function Unsignalled(s: State): nat {
    if s.mutex.ByProducer? && s.mutex.p in s.producers && s.producers[s.mutex.p].PSignalling? then 1 else 0
  }

  ghost predicate WakeOk(s: State) {
    Sleepers(s) != {} && !s.cancelled ==> |s.queue| <= |DueSet(s)| + Unsignalled(s)
  }

  predicate HasTask(pc: Worker) {
    pc.Unlocking? || pc.Starting? || pc.Running? || pc.FreeLocking? || pc.Freeing?
  }

  function Popped(s: State): int { s.pushed - |s.queue| }

  /** The queue holds the last pushes, in order. */
  ghost predicate QueueOk(s: State) {
    && |s.queue| <= s.pushed
    && forall i | 0 <= i < |s.queue| :: s.queue[i] == s.pushed - |s.queue| + i
  }

  /** No task is with two workers, or with one and done. */
  ghost predicate HeldOk(s: State) {
    && (forall t | t in s.finished :: t < Popped(s))
    && (forall w | w in s.workers && HasTask(s.workers[w]) ::
          s.workers[w].task < Popped(s) && s.workers[w].task !in s.finished)
    && (forall v, w | v in s.workers && w in s.workers && HasTask(s.workers[v]) && HasTask(s.workers[w])
                      && s.workers[v].task == s.workers[w].task :: v == w)
  }

  /** No popped task is forgotten. */
  ghost predicate CarriedOk(s: State) {
    forall t: Task | t < Popped(s) && t !in s.finished :: Carried(s, t)
  }

  ghost predicate Carried(s: State, t: Task) {
    exists w | w in s.workers :: HasTask(s.workers[w]) && s.workers[w].task == t
  }

  predicate BroadcastDone(s: State) { s.destroyer.DUnlocking? || s.destroyer.DJoining? || s.destroyer.DJoined? }

  ghost predicate QuietOk(s: State) {
    BroadcastDone(s) ==> forall w | w in s.workers ::
      !s.workers[w].Asleep? && !s.workers[w].Parking? && !s.workers[w].Popping? && !s.workers[w].Unlocking?
  }

  ghost predicate Inv(s: State) {
    MutexOk(s) && CancelOk(s) && SeenOk(s) && WakeOk(s) && QueueOk(s) && HeldOk(s) && CarriedOk(s) && QuietOk(s)
  }

  // ---- Preservation ----

  lemma WorkMutexOk(s: State, w: Id)
    requires MutexOk(s) && WorkerCan(s, w)
    ensures MutexOk(DoWork(s, w))
  {
  }

  lemma WorkSeenOk(s: State, w: Id)
    requires MutexOk(s) && SeenOk(s) && WorkerCan(s, w)
    ensures SeenOk(DoWork(s, w))
  {
  }

  lemma WorkQueueOk(s: State, w: Id)
    requires SeenOk(s) && QueueOk(s) && WorkerCan(s, w)
    ensures QueueOk(DoWork(s, w))
    ensures Popped(DoWork(s, w)) == Popped(s) + if s.workers[w].Popping? then 1 else 0
    ensures s.workers[w].Popping? ==> DoWork(s, w).workers[w] == Unlocking(Popped(s))
  {
  }

  /** Where a worker's task comes from and goes to. */
  lemma WorkTask(s: State, w: Id)
    requires SeenOk(s) && QueueOk(s) && WorkerCan(s, w)
    ensures var pc, pc', s' := s.workers[w], DoWork(s, w).workers[w], DoWork(s, w);
            && s'.workers == s.workers[w := pc']
            && (HasTask(pc') ==> pc'.task == if HasTask(pc) then pc.task else Popped(s))
            && (HasTask(pc') && !HasTask(pc) ==> pc.Popping?)
            && s'.finished == (if pc.Freeing? then s.finished + {pc.task} else s.finished)
            && (pc.Freeing? ==> !HasTask(pc'))
  {
    WorkQueueOk(s, w);
  }

  lemma WorkHeldOk(s: State, w: Id)
    requires SeenOk(s) && QueueOk(s) && HeldOk(s) && WorkerCan(s, w)
    ensures HeldOk(DoWork(s, w))
  {
    hide SeenOk, QueueOk, Popped, DoWork;
    WorkQueueOk(s, w);
    WorkTask(s, w);
  }

  lemma WorkCarriedOk(s: State, w: Id)
    requires SeenOk(s) && QueueOk(s) && HeldOk(s) && CarriedOk(s) && WorkerCan(s, w)
    ensures CarriedOk(DoWork(s, w))
  {
    hide SeenOk, QueueOk, Popped, HeldOk;
    WorkQueueOk(s, w);
    var s' := DoWork(s, w);
    forall t: Task | t < Popped(s') && t !in s'.finished ensures Carried(s', t) {
      if t < Popped(s) {
        assert t !in s.finished && Carried(s, t);
        var v :| v in s.workers && HasTask(s.workers[v]) && s.workers[v].task == t;
        assert v in s'.workers && HasTask(s'.workers[v]) && s'.workers[v].task == t;
      } else {
        assert w in s'.workers && s'.workers[w].task == t;
      }
    }
  }

  lemma WorkQuietOk(s: State, w: Id)
    requires QuietOk(s) && CancelOk(s) && WorkerCan(s, w)
    ensures QuietOk(DoWork(s, w))
  {
  }

  /** A worker's move takes it out of the due set only by taking a task or finding none. */
  lemma WorkDue(s: State, w: Id)
    requires WorkerCan(s, w)
    ensures var d, d' := DueSet(s), DueSet(DoWork(s, w));
            |d'| >= |d| - 1 && (!s.workers[w].Popping? && !s.workers[w].Testing? && !s.cancelled ==> |d'| >= |d|)
            && (s.workers[w].Testing? && s.queue != [] ==> |d'| >= |d|)
  {
    var d, d' := DueSet(s), DueSet(DoWork(s, w));
    forall v | v != w ensures v in d <==> v in d' {}
    if w in d' {
      assert d <= d';
      SubsetSize(d, d');
    } else {
      assert d - {w} == d';
    }
  }

  lemma SubsetSize(a: set<Id>, b: set<Id>)
    requires a <= b
    ensures |a| <= |b|
  {
    assert b == a + (b - a);
  }

  lemma WorkWakeOk(s: State, w: Id)
    requires MutexOk(s) && SeenOk(s) && WakeOk(s) && WorkerCan(s, w)
    ensures WakeOk(DoWork(s, w))
  {
    var s' := DoWork(s, w);
    WorkDue(s, w);
    if Sleepers(s') != {} && !s'.cancelled {
      if s.workers[w].Parking? {
        assert s'.queue == [];
      } else {
        assert Sleepers(s') == Sleepers(s);
      }
    }
  }

  lemma WorkInv(s: State, w: Id)
    requires Inv(s) && WorkerCan(s, w)
    ensures Inv(DoWork(s, w))
  {
    hide MutexOk, SeenOk, WakeOk, QueueOk, HeldOk, CarriedOk, QuietOk;
    WorkMutexOk(s, w);
    WorkSeenOk(s, w);
    WorkWakeOk(s, w);
    WorkQueueOk(s, w);
    WorkHeldOk(s, w);
    WorkCarriedOk(s, w);
    WorkQuietOk(s, w);
  }

  /** Only moves between places without a task: no task is lost or shared. */
  lemma SameTasks(s: State, s': State)
    requires HeldOk(s) && CarriedOk(s)
    requires s'.workers.Keys == s.workers.Keys && s'.finished == s.finished && Popped(s') == Popped(s)
    requires forall w | w in s.workers && (HasTask(s.workers[w]) || HasTask(s'.workers[w])) :: s'.workers[w] == s.workers[w]
    ensures HeldOk(s') && CarriedOk(s')
  {
    hide Popped;
    forall t: Task | t < Popped(s') && t !in s'.finished ensures Carried(s', t) {
      assert Carried(s, t);
      var v :| v in s.workers && HasTask(s.workers[v]) && s.workers[v].task == t;
      assert v in s'.workers && s'.workers[v] == s.workers[v];
    }
  }

  lemma WakePlaces(s: State, ids: set<Id>)
    requires MutexOk(s) && CancelOk(s) && SeenOk(s) && QuietOk(s)
    ensures var s' := s.(workers := Wake(s.workers, ids));
            MutexOk(s') && CancelOk(s') && SeenOk(s') && QuietOk(s')
  {
  }

  lemma WakeInv(s: State, ids: set<Id>)
    requires Inv(s)
    ensures Inv(s.(workers := Wake(s.workers, ids)))
  {
    hide WakeOk, MutexOk, CancelOk, SeenOk, QuietOk, HeldOk, CarriedOk;
    WakePlaces(s, ids);
    WakeWakeOk(s, ids);
    SameTasks(s, s.(workers := Wake(s.workers, ids)));
  }

  lemma WakeSets(s: State, ids: set<Id>)
    ensures var s' := s.(workers := Wake(s.workers, ids));
            DueSet(s') == DueSet(s) + (ids * Sleepers(s)) && Sleepers(s') == Sleepers(s) - ids
  {
  }

  lemma WakeWakeOk(s: State, ids: set<Id>)
    requires WakeOk(s)
    ensures WakeOk(s.(workers := Wake(s.workers, ids)))
  {
    WakeSets(s, ids);
    SubsetSize(DueSet(s), DueSet(s) + (ids * Sleepers(s)));
  }

  /** The heart of the monitor: the signal for a pushed task wakes one more worker, or there
      was none to wake. */
  lemma SignalWakeOk(s: State, p: Id, wake: set<Id>)
    requires MutexOk(s) && WakeOk(s) && p in s.producers && s.producers[p].PSignalling? && Signals(s, wake)
    ensures WakeOk(DoProduce(s, p, wake))
  {
    WakeSets(s, wake);
    if Sleepers(s) != {} {
      var w :| w in wake;
      assert w !in DueSet(s);
      SubsetSize(DueSet(s) + {w}, DueSet(s) + (wake * Sleepers(s)));
      assert DueSet(DoProduce(s, p, wake)) == DueSet(s) + (wake * Sleepers(s));
    }
    assert Sleepers(DoProduce(s, p, wake)) == Sleepers(s) - wake;
  }

  lemma SpuriousInv(s: State, w: Id)
    requires Inv(s) && w in s.workers && s.workers[w].Asleep?
    ensures Inv(s.(workers := s.workers[w := Woken]))
  {
    WakeInv(s, {w});
    assert Wake(s.workers, {w}) == s.workers[w := Woken];
  }

  /** The pushed task has yet to be signalled. */
  lemma PushInv(s: State, p: Id)
    requires Inv(s) && p in s.producers && s.producers[p].PPushing?
    ensures Inv(DoProduce(s, p, {}))
  {
    hide HeldOk, CarriedOk;
    var s' := DoProduce(s, p, {});
    assert DueSet(s') == DueSet(s) && Sleepers(s') == Sleepers(s);
    SameTasks(s, s');
  }

  /** Steps that move only the mutex and a producer or the destroyer. */
  lemma OuterInv(s: State, s': State)
    requires Inv(s) && MutexOk(s') && CancelOk(s')
    requires s'.workers == s.workers && s'.queue == s.queue && s'.pushed == s.pushed && s'.finished == s.finished
    requires s.cancelled ==> s'.cancelled
    requires BroadcastDone(s') ==> BroadcastDone(s)
    requires Unsignalled(s) <= Unsignalled(s')
    ensures Inv(s')
  {
    hide MutexOk, HeldOk, CarriedOk, Unsignalled;
    assert DueSet(s') == DueSet(s) && Sleepers(s') == Sleepers(s);
    SameTasks(s, s');
  }

  lemma SignalInv(s: State, p: Id, wake: set<Id>)
    requires Inv(s) && p in s.producers && s.producers[p].PSignalling? && Signals(s, wake)
    ensures Inv(DoProduce(s, p, wake))
  {
    hide WakeOk, HeldOk, CarriedOk;
    WakeInv(s, wake);
    SignalWakeOk(s, p, wake);
    SameTasks(s.(workers := Wake(s.workers, wake)), DoProduce(s, p, wake));
  }

  lemma ProduceInv(s: State, p: Id, wake: set<Id>)
    requires Inv(s) && Enabled(s, Produce(p, wake))
    ensures Inv(DoProduce(s, p, wake))
  {
    match s.producers[p]
    case PLocking => OuterInv(s, DoProduce(s, p, wake));
    case PPushing => PushInv(s, p);
    case PSignalling => SignalInv(s, p, wake);
    case PUnlocking => OuterInv(s, DoProduce(s, p, wake));
  }

  lemma BroadcastInv(s: State)
    requires Inv(s) && s.destroyer.DBroadcasting?
    ensures Inv(DoDestroy(s))
  {
    hide WakeOk, HeldOk, CarriedOk;
    WakeInv(s, s.workers.Keys);
    SameTasks(s.(workers := Wake(s.workers, s.workers.Keys)), DoDestroy(s));
    assert WakeOk(DoDestroy(s)) by { CancelledWakeOk(DoDestroy(s)); }
  }

  lemma CancelledWakeOk(s: State)
    requires s.cancelled
    ensures WakeOk(s)
  {
  }

  lemma DestroyInv(s: State)
    requires Inv(s) && Enabled(s, Destroy)
    ensures Inv(DoDestroy(s))
  {
    match s.destroyer
    case DIdle => OuterInv(s, DoDestroy(s));
    case DLocking => OuterInv(s, DoDestroy(s));
    case DBroadcasting => BroadcastInv(s);
    case DUnlocking => OuterInv(s, DoDestroy(s));
    case DJoining => OuterInv(s, DoDestroy(s));
  }

  lemma StepInv(s: State, l: Label)
    requires Inv(s) && Enabled(s, l)
    ensures Inv(Do(s, l))
  {
    match l
    case Work(w) => WorkInv(s, w);
    case Spurious(w) => SpuriousInv(s, w);
    case Call(p) => OuterInv(s, Do(s, l));
    case Produce(p, wake) => ProduceInv(s, p, wake);
    case Destroy => DestroyInv(s);
  }

  lemma InitInv(ids: set<Id>)
    ensures Inv(Init(ids))
  {
  }

  /** Every state of every run satisfies the invariant. */
  lemma {:induction false} RunInv(states: seq<State>, labels: seq<Label>, ids: set<Id>, i: nat)
    requires IsRun(states, labels) && states[0] == Init(ids) && i <= |labels|
    ensures Inv(states[i])
  {
    hide Inv, Enabled, Do;
    if i == 0 {
      InitInv(ids);
    } else {
      RunInv(states, labels, ids, i - 1);
      assert Enabled(states[i - 1], labels[i - 1]) && states[i - 1 + 1] == Do(states[i - 1], labels[i - 1]);
      StepInv(states[i - 1], labels[i - 1]);
    }
  }
}
