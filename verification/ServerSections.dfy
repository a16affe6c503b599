/** Which mutexes guard what: two threads are never in the same critical section of server.c. */
module ServerSections {
  import opened Options
  import opened ServerModel
  import opened ServerLocks

  /** Between locking and unlocking clients_map_mutex (server.c:142-149, 367-402, 439-442). */
  predicate OnClientsMap(pc: PC) {
    || (pc.Entering? && pc.holding)
    || pc == Running(RemClients)
    || (pc.Push? && (pc.stage.WantList? || pc.stage.Scan? || pc.stage.WantCur? || pc.stage.HoldCur?))
  }

  /** Between locking and unlocking compilers_map_mutex (server.c:151-164, 422-436). */
  predicate OnCompilersMap(pc: PC) {
    pc.Running? && (pc.step.RegCompilers? || pc.step.RemCompilers? || pc.step.RemWantList? || pc.step.RemList?)
  }

  /** Between locking and unlocking the list mutex of compiler k (server.c:368-401, 427-434). */
  predicate OnList(pc: PC, k: Compiler) {
    || (pc.Running? && pc.step.RemList? && pc.step.k == k)
    || (pc.Push? && pc.k == k && (pc.stage.Scan? || pc.stage.WantCur? || pc.stage.HoldCur?))
  }

  /** Between locking and unlocking db_mutex (server.c:287-321, 335-337). */
  predicate OnDatabase(pc: PC) {
    || (pc.Running? && pc.step.PostHold?)
    || (pc.Poll? && (pc.poll.PollHold? || pc.poll.Selected? || pc.poll.Marking? || pc.poll.RollingBack?))
  }

  /** Between locking and unlocking the mutex of the client of thread o: by that thread itself
      (server.c:225-228, 241-249, 446-458), or by a push (server.c:382-384, 405-407). */
  predicate OnClient(t: Tid, pc: PC, o: Tid) {
    || (t == o && pc.Running? && (pc.step.ProcHold? || pc.step.ClearHold?))
    || (t == o && pc.Removing? && (pc.drain.DrainStart? || pc.drain.DrainClear? || pc.drain.Drain?))
    || (t == o && pc.Push? && pc.caller.ByRemover?)
    || (pc.Push? && ((pc.stage.HoldCur? && pc.stage.cur == o) || (pc.stage.HoldChosen? && pc.stage.o == o)))
  }

  lemma SectionsAreHeld(t: Tid, pc: PC, k: Compiler, o: Tid)
    ensures OnClientsMap(pc) <==> ClientsMap in Held(t, pc)
    ensures OnCompilersMap(pc) <==> CompilersMap in Held(t, pc)
    ensures OnList(pc, k) <==> ListOf(k) in Held(t, pc)
    ensures OnDatabase(pc) <==> Db in Held(t, pc)
    ensures OnClient(t, pc, o) <==> ClientMutex(o) in Held(t, pc)
  {
  }

  /** In every state of every run two threads are never both on clients_map, on compilers_map, on one
      list, on the database or on one client. */
  lemma SectionsExclude(states: seq<State>, labels: seq<Label>, n: nat, t: Tid, u: Tid, k: Compiler, o: Tid)
    requires Run(states, labels) && n < |states| && t != u && t in states[n].threads && u in states[n].threads
    ensures var p, q := states[n].threads[t], states[n].threads[u];
            && !(OnClientsMap(p) && OnClientsMap(q)) && !(OnCompilersMap(p) && OnCompilersMap(q))
            && !(OnList(p, k) && OnList(q, k)) && !(OnDatabase(p) && OnDatabase(q)) && !(OnClient(t, p, o) && OnClient(u, q, o))
  {
    hide Run, Held, ThreadsOk, IndexOk, TargetsOk, OnClientsMap, OnCompilersMap, OnList, OnDatabase, OnClient;
    RunInv(states, labels, n);
    SectionsAreHeld(t, states[n].threads[t], k, o);
    SectionsAreHeld(u, states[n].threads[u], k, o);
    assert Held(t, states[n].threads[t]) !! Held(u, states[n].threads[u]);
  }
}
