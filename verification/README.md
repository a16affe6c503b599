# Judge server: a verified model

The judge server takes solutions that users submit out of a MySQL table and hands them to
connected checker clients. This project models its hard parts in Dafny and proves what they
promise, for every input, every run and every interleaving:

- **uthash** (`Hash*.dfy`): the intrusive hash table under every map of the server. `HashSpec` is
  the table as a value, for an arbitrary hash function; `HashPolicy` the arithmetic of its
  expansion policy; `HashRuns` lookups and whole runs; `HashGrowth` when a table grows and when it
  stops growing; `HashLinks` and `HashExpand` the pointer writes; `HashBloom` the filter; `HashTable` the class that runs the macros on link fields and a
  bucket array and is proved to follow `HashSpec` step by step.
- **The list mergesorts** (`SortSpec.dfy`, `Pointers.dfy`, `ListSort.dfy`): one in-place bottom-up
  sort in the four link disciplines of utlist.h and uthash.h, proved to give the stable sorted order.
- **The dispatcher** (`Server*.dfy`): server.c as a step machine whose steps are lock acquisitions,
  database queries and the code between them, with the invariants of all its interleavings: locks
  (`ServerLocks`), the rows of the table and the poller's open transaction (`ServerRows`), who has
  which solution (`ServerOwnership`), loss (`ServerConservation`), the life of a row
  (`ServerLifecycle`, `ServerStray`), registration (`ServerRegistration`), compilers
  (`ServerCompilers`), choice and removal (`ServerChoice`, `ServerRemoval`), the order in which
  solutions go through (`ServerQueues`), critical sections (`ServerSections`) and ids (`ServerIds`).
  `ServerDb` proves that every run is a history of one database connection; `ServerWitness` has runs
  that reach the states one would rather not see. `Dispatch*.dfy` are push_solution and remove_client
  as single calls on client objects; `ClientIds.dfy` is the numbering of clients.
- **The database** (`SolutionsDb.dfy`, `Db*.dfy`): solutions_extract_new query by query, with failing
  queries and other threads' queries between any two of them. `DbHistory` has the exact value of a
  row after any history of a connection, `DbTraces` a call as such a history, `DbRounds` any number
  of polls, `DbConnection` the calls themselves, down to the columns of a row.
- **The thread pool and its queue** (`ThreadPool*.dfy`, `Queue.dfy`): the condition-variable monitor
  with spurious wakeups, the life of each task, and the linked queue on heap nodes.
- **The packets** (`Framing.dfy`): transfer_all under any chunking, and the framing of solutions.

Elements of linked structures are addresses, NULL is 0, and a link field is a map from address to
address; the table's records and its bucket array are fields of a class. `dafny verify dfyconfig.toml`
checks everything.

Some properties one would like to state are false of the code. They are kept as the code has them,
and the exact condition is proved instead:

- An expansion of a hash table changes the answer of a lookup exactly for keys that two stored items
  share, because it reverses every chain (`HashRuns.ExpansionKeepsFind`, `HashRuns.SharedKeyWitness`).
- A solution can be in two places: remove_client pushes the solution under check on before it clears
  the slot (server.c:448-449), so for that moment it is in the old slot and in another client's
  queue or slot (`ServerOwnership.DeliveryFromSlotDoubles`, `ServerWitness.SlotAndQueue`,
  `ServerWitness.TwoSlots`). Of two places one is always such a slot (`ServerOwnership.OnePlace`),
  unless the solution is one of the next item.
- A row can be handed out while it is new, and then once more: push_solution posts "FL" without the
  database mutex (server.c:363, 396), and where that query fails and the server undoes the poller's
  transaction, the marks in it are gone and the commit succeeds all the same. A commit does this
  exactly if the row was marked inside the transaction and the transaction was undone since
  (`ServerStray.StraysExactly`, and in terms of the queries `DbRounds.MarkKeptExactly`; reached by
  `ServerWitness.UndoneMarkStrays`, `ServerWitness.HandedTwice` and `DbConnection.HandedTwice`). A
  row that is marked when it is handed out is handed out once (`ServerLifecycle.HandedOutOnce`,
  `DbRounds.HandedOutOnce`). The results on single solutions below are about solutions to which
  this has not happened; nothing that happens to other solutions matters to them.
- The dispatcher can leave a solution marked as handed out with nobody left to check it: exactly if
  a step dropped it, no undoing made its row new again, and no result stored for it stands
  (`ServerConservation.MissingExactly`). Dropping steps are the pop over an outstanding check, the
  clearing of the slot, "FL", the push to a freed client, and an extraction that fails and leaves the
  row marked; `ServerWitness` reaches each of them with no result stored, and a run in which a stored
  "FL" is taken back by the poller's rollback (`ServerWitness.RollbackLoses`).
- last_client_id can give out a live id: in a run of distinct ids the next one clashes exactly if
  somebody holds the number of live clients plus one (`ClientIds.FreshExactly`,
  `ClientIds.ClashesExactly`), which happens at once or later after a client other than the newest
  has left (`ClientIds.TwoClientsShareAnId`, `ClientIds.OutOfOrderMayClashLater`).
- A packet survives exactly if its length fits in 16 bits (`Framing.FrameRoundTrips`).
- A failed extraction can leave rows marked as handed out (`DbFailures.MarkedExactly` says exactly
  when; `DbConnection.CommitFailureStrandsARow`), and once a later poll starts its transaction they
  are never handed out at all (`DbRounds.StrandedForever`).
- A result that another thread posts while an extraction's transaction is open can be taken back
  (`DbFailures.PostSurvives` says exactly when; `DbConnection.RollbackTakesBackAPost`).
- A row's checking can fall: exactly if a query undoes a transaction in which it was raised, or marks a
  row that was finished after the select (`DbHistory.FallsExactly`, and over the dispatcher's runs
  `ServerLifecycle.CheckingFallsExactly`).
- A queue that reaches 2^32 elements is started afresh by the next push (`Queue.Push`); a run keeps
  first in, first out exactly if no push finds it that full (`Queue.FirstInFirstOut`).
- The load expression of push_solution groups as `(count + busy) ? 1 : 0`, so the choice is "first
  idle, else last live", not "least loaded" (`DispatchSpec.ChoiceIsFirstIdleOrLastLive`).

## Model

| member | source | states |
|---|---|---|
| `HashPolicy.MaskIsRemainder` | uthash.h:198-201 | selecting a bucket with `& (num_buckets - 1)` is the remainder, for a power of two |
| `HashPolicy.IdealIsCeil` | uthash.h:648-664 | the shift-and-mask formula is the least integer at or above items / (2 * num_buckets), and is not 0 |
| `HashPolicy.FewItems` | uthash.h:884-896 | under the chain bound a table holds fewer than 20 items per bucket |
| `HashPolicy.ExpansionRebounds` | uthash.h:677-692 | doubling re-establishes the bound on every chain, on the sum of expand_mult and on the ideal length, however unevenly the items spread |
| `HashSpec.CountsCover` | uthash.h:278-304 | the bucket counts add up to num_items |
| `HashSpec.HoldsIsPermutation` | uthash.h:278-304 | every chain is a permutation of the items of the app order that hash to its bucket |
| `HashSpec.SlotSplits` | uthash.h:681-687 | an item of bucket i belongs to bucket i or i + num_buckets after doubling |
| `HashSpec.ExpandSplitsBucket` | uthash.h:681-700 | the two buckets that bucket i splits into hold together exactly its items: none lost, doubled or moved elsewhere |
| `HashSpec.ExpandBookkeeping` | uthash.h:677-692 | after an expansion: the ideal length is the ceiling, nonideal_items the sum of the excesses over it, and each expand_mult is count / ideal where count exceeds it, else 0 |
| `HashSpec.AddWF` | uthash.h:173-196 | an addition, with or without the expansion it may cause, keeps the whole invariant, chain bound included |
| `HashSpec.DeleteWF` | uthash.h:215-248 | a deletion, also of the head, the tail or the only item, keeps the whole invariant |
| `HashSpec.SortingWF` | uthash.h:719-804 | sorting keeps the whole invariant |
| `HashRuns.FindExact` | uthash.h:94-105 | a lookup returns a stored item with that key, and NULL exactly when there is none |
| `HashRuns.ExpandedFind` | uthash.h:681-700 | before an expansion a lookup finds the front match of a chain, after it the back match |
| `HashRuns.ExpansionKeepsFind` | uthash.h:681-700 | an expansion keeps the answer for a key if and only if at most one stored item has it |
| `HashRuns.SharedKeyWitness` | uthash.h:681-700 | a table with two items of one key: the lookup finds the newer before an expansion and the older after it |
| `HashRuns.RunWF` | uthash.h:278-328 | every state of every run of additions, deletions and sorts satisfies the invariant, for every hash function |
| `HashRuns.BoundedChains` | uthash.h:611-622 | in every state of every run, while noexpand is 0: chains of at most 10 * (expand_mult + 1) items, sum of expand_mult at most num_buckets, ideal length at most 10, fewer than 20 items per bucket |
| `HashGrowth.IneffectiveExactly` | uthash.h:704-709 | an expansion adds one to ineff_expands if it leaves more than half of the items beyond the ideal length, and otherwise sets it to 0; noexpand is set above 1 |
| `HashGrowth.GrowsExactly` | uthash.h:611-622 | in every run an operation grows the bucket array, to twice its size, exactly if it adds an item to a bucket that then holds 10 * (expand_mult + 1) items or more, and noexpand is 0 |
| `HashGrowth.NoexpandExactly` | uthash.h:704-709 | in every state of every run growth is off if and only if two successive expansions of the table since it was last made each left more than half of its items beyond the ideal length |
| `HashGrowth.EvenRunsAreBounded` | uthash.h:637-645 | in a run without such a pair the chain bound holds in every state |
| `HashGrowth.FiguresExactly` | uthash.h:677-709 | in every state of every run the figures are those the last expansion computed, or zero with 32 buckets where there was none since the table was made |
| `HashGrowth.EmptyIsMade` | uthash.h:215-224 | in every run an empty table is a fresh one, with 32 empty buckets and all figures zero |
| `HashRuns.RunRefinesMap` | uthash.h:173-248 | with distinct keys a run cannot be told from a plain map by lookups, nor from a list in insertion (or stably sorted) order by iterating |
| `HashLinks.UnlinkLinks` | uthash.h:225-245 | unlinking an element through its own neighbours leaves both directions linked without it, with the right head and tail |
| `HashLinks.PushLinks` | uthash.h:611-617 | pushing on the front of a chain leaves both directions linked |
| `HashExpand.SoFarStep` | uthash.h:684-699 | moving one item pushes it on one new chain and changes no other |
| `HashExpand.MovingIsApart` | uthash.h:684-699 | the item being relinked is in no new chain and not in what is still to be read |
| `HashExpand.MidwayStep` | uthash.h:684-699 | one round of the inner loop keeps the new chains, the unread old ones, the counts, expand_mult and nonideal_items in step |
| `HashBloom.BitSetSets` | uthash.h:124-131 | setting a filter bit sets it and clears none |
| `HashBloom.CoversGrows` | uthash.h:124-131 | after an addition the bit of every stored item is in range and set |
| `HashTable.UtHash.MakeTable` | uthash.h:141-158 | the new table has 32 empty buckets and zeroed counters |
| `HashTable.UtHash.AppendToOrder` | uthash.h:173-189 | the element is at the end of the app order, linked both ways, with head, tail and num_items right |
| `HashTable.UtHash.PushOnBucket` | uthash.h:611-617 | the element is at the front of its chain and no other bucket changes |
| `HashTable.UtHash.MoveItem` | uthash.h:684-699 | one item moves from its old chain to its new one |
| `HashTable.UtHash.MoveBucket` | uthash.h:683-699 | the loop over one old chain moves all of it |
| `HashTable.UtHash.ExpandBuckets` | uthash.h:666-712 | the whole in-place expansion yields the doubled table of the specification, with all its figures |
| `HashTable.UtHash.AddToBucket` | uthash.h:611-622 | push, then expand exactly when the bucket reached its limit and expansion is not switched off |
| `HashTable.UtHash.AddItem` | uthash.h:173-196 | HASH_ADD_KEYPTR takes the represented table to the specified one and keeps the invariant |
| `HashTable.UtHash.AddToBloom` | uthash.h:127-128 | the filter still covers every stored item |
| `HashTable.UtHash.UnlinkFromOrder` | uthash.h:225-241 | the element leaves the app order; head, tail and links are right |
| `HashTable.UtHash.UnlinkFromBucket` | uthash.h:625-635 | the element leaves its chain and no other chain changes |
| `HashTable.UtHash.DeleteItem` | uthash.h:215-248 | HASH_DELETE takes the represented table to the specified one and keeps the invariant |
| `HashTable.UtHash.FindItem` | uthash.h:94-105 | with and without the Bloom filter a lookup gives the same, exact answer |
| `HashTable.UtHash.FindInBucket` | uthash.h:597-608 | the first item of the chain with the key |
| `HashTable.UtHash.SortItems` | uthash.h:719-804 | HASH_SRT sorts the app order stably and changes no chain and no lookup |
| `HashTable.UtHash.Fsck` | uthash.h:278-328 | the checker never finds fault with a table in its invariant |
| `HashTable.UtHash.DeleteWhere` | uthash.h:871-873 | iterating with deletion of the current element visits every element once, in order, and the rest keep theirs |
| `SortSpec.InsertionSortIsStableSort` | utlist.h:108-165 | the reference order is a sorted permutation that keeps the order of equals |
| `SortSpec.MergeOfSortedRuns` | utlist.h:133-153 | merging two sorted runs gives the sorted order of both, ties to the left |
| `SortSpec.PassDoublesRuns` | utlist.h:121-158 | one pass turns sorted runs of k into sorted runs of 2k |
| `SortSpec.BottomUpIsInsertionSort` | utlist.h:116-164 | all passes together give the stable sorted order, for every total preorder |
| `SortSpec.BottomUpIsPermutation` | utlist.h:116-164 | for every comparison function at all the result is a permutation |
| `ListSort.MergeRuns` | uthash.h:743-788 | the inner loop merges two runs in place, in each of the four link disciplines |
| `ListSort.PassOnce` | uthash.h:728-796 | one pass relinks the whole list and restores its shape |
| `ListSort.Sort` | uthash.h:719-804 | terminates for every comparison and list, restores next, prev, head and tail, writes to no other node, and gives the stable sorted order for a total preorder; LL_SORT2, DL_SORT2 and CDL_SORT2 by `kind` |
| `ServerLocks.StepInv` | server.c:141-460 | registration, processing, results, pushing and removal each keep the lock, map and list invariants |
| `ServerRegistration.RegisteredAsNamed` | server.c:151-164 | in every run a client in service is in clients_map and on the list of each compiler exactly as often as its handshake named it |
| `ServerRegistration.ListsInOrder` | server.c:152-163 | in every run every list is in the order of the registrations of the clients still on it |
| `ServerSections.SectionsExclude` | server.c:142-458 | in every state of every run two threads are never both on clients_map, on compilers_map, on one list, on the database or on one client, each section named by its code |
| `ServerIds.StepIds` | server.c:143 | every step of the dispatcher is, for its ids, a join of a fresh id, a leave of a live one, or neither, as in ClientIds |
| `ServerIds.LastIdCountsClients` | server.c:441 | in every state of every run last_client_id is one more than the number of clients in clients_map |
| `ServerLocks.IndexConsistent` | server.c:375-381 | in every run every id in a compiler's list is in clients_map, so the INCONSISTENCY branch is not reachable |
| `ServerLocks.AsksUpwards` | server.c:422-458 | every thread asks only for a mutex above all those it holds; a remover waits only for live clients or clients removed after its own |
| `ServerLocks.NoDeadlock` | server.c:142-458 | no state of any run has a cycle of threads waiting for each other's mutexes |
| `ServerLocks.BlockedImpliesProgress` | server.c:142-458 | behind every blocked thread there is one that can run, provided a client about to be numbered gets a free id |
| `ServerOwnership.StepOwned` | server.c:217-460 | every step keeps the record of where a solution is in agreement with the batch, the hands, the queues and the slots other than those already pushed on and about to be cleared, and each queue and batch holds it at most once |
| `ServerOwnership.StepRows` | solutions_db.c:32-91 | every step, queries that fail and undo included, keeps a row and the open transaction in order: what is handed out is marked, what is marked is handed out or being extracted, and undoing makes new only what nobody has |
| `ServerOwnership.OnePlace` | server.c:217-460 | in every state of every run, of two different places of a solution, as the fields say, one is the slot of a remover between server.c:448 and 449, or the solution was handed out while its row was new |
| `ServerOwnership.DeliveryFromSlotDoubles` | server.c:447-449 | delivering the solution under check leaves it in the slot and puts it into the receiver's queue, unless the receiver has been freed |
| `ServerOwnership.QueuesHaveNoDuplicates` | server.c:217-460 | in every state of every run no queue holds a solution twice that was never handed out while its row was new |
| `ServerWitness.SlotAndQueue` | server.c:447-449 | a run that puts a solution into the slot of one client and the queue of another |
| `ServerWitness.TwoSlots` | server.c:241-249 | a run that puts a solution into the slots of two clients |
| `ServerConservation.DroppedExactly` | server.c:217-409 | in every state of every run nobody has x, on record, exactly if a step dropped it that no undoing followed which made its row new |
| `ServerConservation.PostedExactly` | server.c:285-322 | in every state of every run a row is finished exactly if a step stored a result for it that no later undoing took back |
| `ServerConservation.MissingExactly` | server.c:217-409 | in every state of every run x is marked as handed out, under no extraction and in no batch, hand, queue or live slot, exactly if a step dropped it, no undoing made its row new since, and no result stored for it stands |
| `ServerConservation.GoesMissingExactly` | server.c:217-409 | the steps at which x goes missing: those that drop it with no result stored, and those that take its result back after it was dropped |
| `ServerConservation.Conservation` | server.c:333-457 | in every state of every run a solution handed out before is in exactly one place, or finished and nowhere, or missing, slots about to be cleared left out of account; as long as no step dropped it, it is in exactly one place |
| `ServerWitness.OverwritingLoses` | server.c:247-248 | a run that reaches the pop over an outstanding check |
| `ServerWitness.UnknownCodeLoses` | server.c:217-228 | a run that reaches the clearing of the slot after a result with code 9 |
| `ServerWitness.FreedClientLoses` | server.c:401-407 | a run that reaches a push to a client freed since it was chosen |
| `ServerWitness.UnstoredFailureLoses` | server.c:361-365 | a run that reaches an "FL" that is not stored |
| `ServerWitness.FailedCommitLoses` | solutions_db.c:86-88 | a run that reaches a failing commit that leaves its row marked |
| `ServerWitness.RollbackLoses` | server.c:395-396 | a run in which a remover's "FL" is stored inside the poller's transaction, an update fails and the rollback takes the "FL" back: the solution is missing |
| `ServerWitness.UndoneMarkStrays` | server.c:395-396 | a run in which a remover's "FL" fails, the poller's transaction is undone, and the commit hands out a row that is new |
| `ServerWitness.HandedTwice` | server.c:333-350 | a run that goes on from there: the solution is in a client's queue and once more in the poller's batch |
| `ServerRemoval.OthersKeepOff` | server.c:444-458 | no other thread touches the queue or the slot of a client whose remover holds its mutex |
| `ServerRemoval.RemovalPushesItsWork` | server.c:444-458 | in every run a removal pushes exactly the solution under check and then the queue as of the moment it gets the mutex, in order, whatever the others do |
| `ServerRemoval.RemovalLandsItsWork` | server.c:444-458 | in every run what a removal has pushed has landed, in order and each once, in the queue of another client or failed, but for the push under way |
| `ServerCompilers.PushesUnderItsCompiler` | server.c:356-360 | in every state of every run whoever pushes a solution pushes a row of the table, under the compiler of that row |
| `ServerCompilers.RowsAsSubmitted` | server.c:333-350 | the rows are those submitted, each for the compiler it was submitted for |
| `ServerChoice.PushDelivers` | server.c:375-407 | in every run a solution is delivered to the client that the push settled on, by the choice below, from the list of the compiler of its row |
| `ServerChoice.RemoverDelivers` | server.c:375-407 | in every run what a removal delivers goes to another client, which was in clients_map and on the list of the compiler of the solution's row when the push settled on it, after the removed client had left the map |
| `ServerChoice.EarlierWereLoaded` | server.c:375-393 | in every run each entry that a scan has passed was loaded at the step of this scan that looked at it |
| `ServerChoice.RunScans` | server.c:375-393 | in every state of every run a scan's best client is that of the entry before the one it looks at |
| `ServerChoice.ChoiceInRuns` | server.c:375-400 | in every run the client settled on is that of the first entry, on the list of the compiler of the solution's row, that the scan found with nothing queued and nothing under check, each earlier one busy when it was looked at, or of the last entry when all were busy; a solution fails only where that compiler is unknown or its list empty |
| `ServerModel.WithoutKeepsOrder` | server.c:426-435 | deleting an id from a list keeps exactly the other entries, in their old order |
| `ServerQueues.ClientQueueIsFifo` | server.c:240-249 | in every run what a client has had under check or pushed on, in order, followed by its queue is what was delivered to it, in order |
| `ServerQueues.PollerPushesInOrder` | server.c:346-349 | in every run the poller pushes exactly the rows its commits hand it, in the order of the selects |
| `ServerQueues.PostsAsReported` | server.c:217-223 | in every run a client's thread posts a result only for the id and with the code of the report that made it post |
| `ServerLifecycle.HandedOutOnce` | server.c:333-350 | in a whole run the poller hands a row out twice only if the row was new at the first of the two commits |
| `ServerLifecycle.HandedStaysHanded` | server.c:333-350 | a row that is marked when it is handed out never counts as new again, and no extraction selects it again |
| `ServerStray.StraysExactly` | server.c:333-350 | in every run a commit hands a row out while it is new, for the first time, if and only if the row was marked inside the transaction and the transaction has been undone since |
| `ServerDb.StepIsQuery` | solutions_db.c:9-15 | every step of the dispatcher makes of every row what its queries make of it on the connection |
| `ServerDb.RowExactly` | solutions_db.c:32-113 | in every state of every run a row's checking is what the last write to it that is not taken back wrote, or what it was |
| `ServerLifecycle.CheckingFallsExactly` | solutions_db.c:79-88 | in every run a row's checking falls at a step if and only if the step undoes a transaction that began when it was lower, or marks a row that was finished after the select |
| `ServerLifecycle.RestingSolutions` | server.c:444-457 | when a run has come to rest, every solution handed out is with exactly one client that is in clients_map, or with none and finished or missing |
| `ClientIds.LifoIdsAreDistinct` | server.c:143 | if clients leave last in, first out, every new id is fresh |
| `ClientIds.LastCountsClients` | server.c:143 | while ids have been distinct, last_client_id is one more than the number of live clients |
| `ClientIds.FreshExactly` | server.c:143 | in every run whose ids have been distinct so far the next id is fresh if and only if nobody holds the number of live clients plus one |
| `ClientIds.ClashesExactly` | server.c:143 | a whole run gives out an id in use if and only if at some join somebody holds the number of live clients plus one |
| `ClientIds.LeavingOutOfOrderClashes` | server.c:441 | from live ids 1 to n, the next id is fresh if and only if the client that leaves is the newest |
| `ClientIds.OutOfOrderMayClashLater` | server.c:441 | a run in which clients leave out of order, the next id is fresh and the one after it clashes |
| `ClientIds.TwoClientsShareAnId` | server.c:441 | join, join, first leaves: the next id is in use |
| `DispatchSpec.ChoiceIsFirstIdleOrLastLive` | server.c:369-400 | the chosen client is live and listed: the first idle one if any, else the last live one; nobody exactly when the compiler is unknown or has no live client |
| `DispatchSpec.ChoiceUnique` | server.c:369-400 | that description leaves no choice |
| `DispatchSpec.PushAllDelivers` | server.c:444-457 | pushing work in order changes the queues by exactly what was sent to each, at the end, and posts the rest |
| `DispatchSpec.RemovalRedelegates` | server.c:411-460 | the solution under check and then the queue go each to one live listed client or to nobody if there is none; nothing returns to the removed client |
| `Dispatch.Server.ChooseClient` | server.c:369-393 | the scan loop computes the specified choice |
| `Dispatch.Server.PushSolution` | server.c:356-409 | the solution is queued at the chosen client or posted "FL", with the return code saying which |
| `Dispatch.Server.DropId` | server.c:428-433 | the loop that deletes the current entry leaves the list without the id |
| `Dispatch.Server.ForgetId` | server.c:420-436 | the id is gone from every list, also where it was there twice |
| `Dispatch.Server.Redelegate` | server.c:444-457 | the drain loop ends with the client empty and its work pushed in order |
| `Dispatch.Server.RemoveClient` | server.c:411-460 | the whole call takes the network to the specified one, the client leaves clients_map and last_client_id goes down by one, or nothing changes where the id is unknown |
| `SolutionsDb.AskIsView` | solutions_db.c:9-15 | what one query, with what other threads do before it, makes of a row's checking and of the value undoing would restore |
| `DbFailures.MarkedExactly` | solutions_db.c:76-90 | in a call that no other thread's query undoes, a selected row is marked afterwards if and only if its update was made and neither the rollback nor the server took it back, and new otherwise |
| `DbFailures.CommittedMarks` | solutions_db.c:79-90 | in such a call, if the transaction commits, every selected row has checking 1 |
| `DbFailures.PostSurvives` | server.c:395-396 | in such a call, with posts for a row before any number of its queries, the row is finished afterwards if and only if before some query g it is posted and the transaction is not undone at or after g |
| `DbConnection.Connection.UpdateEach` | solutions_db.c:79-85 | the rows up to the first failing update are marked |
| `DbConnection.Connection.MarkSelected` | solutions_db.c:76-90 | the transaction, also where an earlier one is still open; 0 exactly if it commits |
| `DbConnection.AtoiOfDecimal` | solutions_db.c:60-62 | a numeric column comes back as the number it holds |
| `DbConnection.Connection.FillIn` | solutions_db.c:56-73 | every solution has each field from its own column, the source with a terminating NUL and the response cut to the eight bits of its length |
| `DbConnection.Connection.ExtractNew` | solutions_db.c:32-91 | on an error nothing is handed out, else one solution for every selected row, in order, each field from its own column; the return code by cause |
| `DbConnection.Connection.PostResult` | solutions_db.c:109-113 | the row gets checking 2, the verdict and the response, also inside another thread's transaction; or nothing changes, or the open transaction is undone |
| `DbConnection.CommitFailureStrandsARow` | solutions_db.c:86-88 | an extraction whose commit fails: a row is marked and nobody is given it |
| `DbConnection.RollbackTakesBackAPost` | solutions_db.c:81-83 | an extraction whose update fails: a result posted meanwhile is gone |
| `DbConnection.HandedTwice` | solutions_db.c:79-90 | two extractions whose queries all succeed hand out the same row, because another thread's query undid its update |
| `DbHistory.ValueExactly` | solutions_db.c:9-15 | after any history of a connection a row's checking is what the last write that is not taken back wrote, or what it was at the start |
| `DbHistory.FallsExactly` | solutions_db.c:79-88 | over any history a row's checking falls at an event if and only if it undoes a transaction whose last write to the row put it above what it was at the begin, or marks a row that is finished |
| `DbRounds.HistoryIsFold` | solutions_db.c:32-91 | any sequence of polls is such a history, query by query, with what other threads ask in between |
| `DbTraces.AskIsFold` | solutions_db.c:9-15 | one query, with what other threads do before it, makes of any part of a row what the fold over the events makes of it |
| `DbTraces.RowsAreBornNew` | solutions_db.c:37 | a row comes into being by being submitted, new, not accepted and without a response |
| `DbRounds.HistoryExactly` | solutions_db.c:32-113 | the exact checking, verdict and response of a row after any sequence of polls, with failures, posts and undoing of other threads at every point: those of the last write, or post, that is not taken back |
| `DbRounds.HandedSettles` | solutions_db.c:76-90 | a poll that hands a row out leaves it marked or finished for good if and only if some write to it since the select is not taken back, and new otherwise |
| `DbRounds.MarkKeptExactly` | solutions_db.c:79-90 | with no result posted meanwhile, that is so if and only if another thread's query undid the transaction before the row's update, or none did between the update and the commit |
| `DbRounds.HandedOutOnce` | solutions_db.c:32-91 | over any history of polls a row that is handed out while a write to it stands is never handed out again |
| `DbRounds.HandedAgainExactly` | solutions_db.c:32-91 | the next poll that succeeds hands the row out again exactly if no write to it stands, unless a result is posted for it first |
| `DbRounds.StrandedForever` | solutions_db.c:76-90 | rows that a failed poll leaves marked are handed out by no poll, if any later one starts its transaction with nothing undone before that |
| `ThreadPool.RunInv` | thread_pool.c:60-81 | the monitor's invariant holds in every state of every run |
| `ThreadPool.SignalWakeOk` | thread_pool.c:54-57 | the signal for a pushed task wakes one more worker, or there was none to wake |
| `ThreadPoolRuns.NoLostWakeups` | thread_pool.c:49-58 | while a worker sleeps and the pool is live there is a woken worker for every queued task, but for one whose signal is still to come |
| `ThreadPoolRuns.PopsFindATask` | thread_pool.c:64-72 | the pop never finds the queue empty and takes the oldest task |
| `ThreadPoolRuns.TasksConserved` | thread_pool.c:60-81 | every pushed task is queued, with exactly one worker, or done, and never two of these |
| `ThreadPoolTasks.EachTaskRunsOnce` | thread_pool.c:64-78 | in every run a task that is done has been popped exactly once and then its function called exactly once, by the same worker; one that is queued or not yet pushed, neither |
| `ThreadPoolTasks.NoTaskRunsTwice` | thread_pool.c:73 | no task is run at two steps or by two workers |
| `ThreadPoolTasks.EachCallPushesOnce` | thread_pool.c:49-58 | every call of thread_pool_execute pushes exactly one task before it returns |
| `ThreadPoolTasks.TasksAreThePushes` | thread_pool.c:49-58 | the tasks are the pushes, numbered in their order, each put at the end of the queue |
| `ThreadPoolTasks.JoinedMeansExited` | thread_pool.c:29-46 | destroy_thread_pool gets past its joins only when every worker has left |
| `ThreadPoolRuns.HolderCanMove` | thread_pool.c:60-81 | whoever holds a mutex of the pool can move |
| `ThreadPoolRuns.StuckMeansIdle` | thread_pool.c:29-81 | where nobody can move the pool is alive, asleep and empty, or destroyed with every worker gone |
| `ThreadPoolRuns.DestroyStopsWorkers` | thread_pool.c:29-37 | after the broadcast no worker sleeps or takes a task, each finishes at most the one it had, within five steps |
| `Queue.Push` | utils.c:87-105 | the value is appended, or, at 2^32 elements, replaces them all; no freed element is written through |
| `Queue.Pop` | utils.c:72-85 | the oldest value, or NULL from an empty or NULL queue |
| `Queue.Iterate` | utils.c:107-116 | the callback is given the contents in order, or nothing at 2^32 elements |
| `Queue.FirstInFirstOut` | utils.c:72-105 | from any queue of at most 2^32 elements and over any run, what was taken followed by what is left is what was there followed by what was given, if and only if no push finds 2^32 elements |
| `Queue.Perform` | utils.c:72-105 | any sequence of calls on a real queue gives the values of the specification |
| `Framing.FrameBytes` | server.c:251-264 | the packet byte by byte: 16-bit length, operation 10, id, compiler and source length with the high byte first, and the source |
| `Framing.ReadFrameBytes` | server.c:176-203 | the receiver takes the first byte of the length as the high one and splits the stream there |
| `Framing.FrameRoundTrips` | server.c:251-264 | a packet comes back with all its fields if and only if 13 + source_len fits in 16 bits |
| `Framing.StreamRoundTrips` | server.c:251-267 | the concatenated packets of any such solutions come apart again |
| `Framing.Wire.SendAll` | utils.c:7-22 | the full length or a value at or below 0; the stream has grown by all the data or by a proper prefix |
| `Framing.Wire.RecvAll` | utils.c:7-22 | the full length or a value at or below 0; what was read is a prefix of the stream |
| `Framing.Wire.ReceivePacket` | server.c:176-210 | a packet that is accepted is the first of the stream, and every whole one is accepted if no call fails |
| `Framing.Deliver` | server.c:251-267 | sending and receiving any solutions that fit, however cut up, gives the same solutions in order |

## Left out

- Sockets, accept and bind, the UDP control loop, daemonising, configuration and the logger: input and output.
- malloc, free and out-of-memory exits; elements are addresses and objects.
- The bits of the hash functions: the hash is an arbitrary function of the key.
- 32-bit wrap-around of uthash's counters: num_buckets is taken to stay below 2^31 and the item counts below 2^32.
- HASH_SELECT: unused, and it does not keep the tail or num_items.
- The append, delete, search and replace macros of utlist.h, HASH_REPLACE, HASH_CLEAR and HASH_OVERHEAD: they would only add easy members.
- ListSort.Sort: asks for fewer elements than the range of the run-length counter; the last doubling of an `int` run length in utlist.h, whose result is not used, is taken to wrap.
- read_string, block_init, block_free and queue_struct_free: small, and the first three unused.
- The handshake's packet checks and the pieces of the handshake: a connection enters the dispatcher with the compilers it listed.
- Stopping the server (server_running = 0): the dispatcher's runs go on for ever.
- Send and receive timeouts: a client may leave at any point of its loop, which covers every timeout.
- A send that fails half way and is then repeated from the start: the framing results are about transfers that do not fail.
- The dispatcher model takes registration to get an id that is not in use; when the code guarantees that is in `ClientIds`.
- Reads that the code makes without the mutex (compilers_map at server.c:360, clients_map at server.c:414, a list extended under compilers_map_mutex only) count as single steps; data races inside them are not modelled.
- ServerOwnership.QueuesHaveNoDuplicates: says nothing of a solution that was handed out while its row was new, of which there may be several copies; the same holds of DroppedExactly, PostedExactly, MissingExactly, Conservation and RestingSolutions, while HandedOutOnce, CheckingFallsExactly and RowExactly are about every row.
- DbFailures.MarkedExactly: like PostSurvives and CommittedMarks it is about calls that no other thread's query undoes; `DbRounds.HistoryExactly` and `DbRounds.MarkKeptExactly` have the others.
- A connection that is lost for good and the reconnecting that follows: a lost connection is a query that fails and undoes the transaction.
- The signs and overflows of atoi: numeric columns are taken to be unsigned and to fit.
- The verdict that post_result derives from a code and a test number: posts carry the verdict and the text as given.
- Calls of thread_pool_execute after the pool has been freed; the pool's memory is not modelled.
- Fairness of the scheduler: progress is stated as "somebody can move" and as bounds on the number of steps.
