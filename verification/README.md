# Huldra: coordination model and proofs

Huldra is a set of local processes (queue workers, maintenance calls, OAI harvesters) that share one SQLite
store. Each `begin_immediate` block of `src/huldra/db.py` is atomic; between two of them a process may sleep,
die, lose a lease or be overtaken. This project models those transactions, the processes that are sequences of
them, and proves what holds over every interleaving.

How it is built:

- **Transactions as functions** (`Queue`, `Leases`, `Papers`, `Cache`, `Harvest`): one function per transaction,
  with the guards and branches of the SQL. What each means for its caller is proved in the columns of the rows,
  in the same modules and in `QueueMeaning`, `WorkerMeaning` and `HarvestRecords`. `Rollback` and `None` results
  are integrity errors and exceptions. A membership row lives inside its queue item, a match row inside its cache
  entry; the schema's primary keys, its unique index on pending cache keys and its foreign keys are kept.
- **The store as classes** (`QueueStore`, `PaperStore`, `HarvestStore`, `Retention`): the same transactions as
  methods that change table fields row by row, with the loops of the source, each proved to equal its function.
  The source has one class; here its tables are split by subject: coordination, papers and cache, one harvest job
  (whose checkpoint calls the paper store), and the tables that gc works on, the queue among them.
- **Runs** (`Charges`, `Leases`, `Cache`, `Worker`, `Passes`, `Limiter`, `HarvestRuns`): sequences of steps by any
  number of actors, an invariant that every step keeps, and the theorems read off it. Logs of what happened
  (charges, requests, committed pages, network I/O) are part of the modelled state and decide nothing.
- **Algorithms** (`Window`, `Followups`, `IdLists`): planners and loops of the broker and the worker, as methods.
- **Witness runs** (`LateNote`, `StaleRelease`, `StaleFinish`): concrete runs from the empty store that show where a
  promise one might expect is not kept.

Time is a real number of seconds, OAI dates are days, ids are numbers. Clocks do not go back where a run says so.
Hashes are injective and uuids are fresh. Network results, jitter, ids and times are parameters.

## What the code does not promise, and exactly when it does

- **A start note can undo a recorded outcome.** `before_request` (src/huldra/limiter.py:51-131) writes back the
  whole rate state it read several transactions earlier. If its lease expires in between and another actor
  records a rate limit, the note restores the old state and the next request goes out inside the cooldown,
  although every request and every outcome happened within a lease. `LateNote.LateNoteBreaksSpacing` is such a
  run. A note keeps what was recorded if and only if the stored request time and cooldown are still the ones that
  were read (`Limiter.NoteIsSafeExactly`), and it lets a request start too early if and only if the guards it
  overwrites admit only later starts than those it writes (`Limiter.NoteBreaksSpacingExactly`). Spacing is proved
  under the first condition (`Limiter.FetchesAreSpaced`); noting within the lease implies it
  (`Limiter.TimelyRunsAreCareful`).
- **Handing an item back checks no ownership** (src/huldra/db.py:2457-2502). A worker whose claim ended can release
  the item of its successor, a third one claims it, and two workers are live on one item
  (`StaleRelease.TwoWorkersOnOneItem`). A hand-back takes an item from a live worker if and only if the row names
  one other than the worker that hands it back (`Worker.HandBackTakesExactly`). That one worker at most is live on
  an item is kept by a step if and only if it does not release to the delayed state an item on which another
  worker is live (`Worker.ExclusionKeptExactly`, `Worker.OneLiveWorkerPerItem`); handing back before one's claim
  ends is enough (`Worker.TimelyRunIsExclusive`).
- **A worker may go to the network for an attempt that is no longer its own.** Between the second gate and the last
  deadline check a stale release and a new claim fit in (`StaleRelease.UnpaidWorkerIsCleared`). At the gate the
  attempt is paid in every run (`Worker.SecondGateIsPaid`); after the check it is paid if and only if the row named
  the worker when it checked (`Worker.FetchIsPaidExactly`).
- **A late release can raise.** It may make a terminal row pending again; when another pending row has its cache
  key by then, the unique index refuses it (`StaleRelease.LateReleaseRaises`).
- **Finishing a harvest job checks no ownership either** (src/huldra/db.py:1648-1711): a completed job can come to
  read as stopped (`StaleFinish.StaleFinishOverwrites`). The row of an ended job is changed by a step if and only
  if the step is the finish of an owner that gave up (`HarvestRuns.EndedJobChangesExactly`).
- **A failed refresh does not hold its period** (src/huldra/db.py:2003-2030): `enqueue_refresh_if_due` takes the
  minimum with the old completion plus the interval. There is one refresh per interval exactly when that sum still
  lies ahead at the second request (`Cache.RefreshRepeatsExactly`, `Cache.FailedRefreshRepeats`).

## Model

| member | source | states |
|---|---|---|
| Charges.ChargedAtMostOnce | src/huldra/db.py:568-720 | over every run of queue transactions each item, budget and attempt is charged at most once, the durable counter is the number of charges, and no budget exceeds its limit |
| Charges.GateMeansPaid | src/huldra/db.py:568-648 | a closed gate means every budget active for the attempt was charged for exactly it; a reservation that goes ahead closes the gate of a claimed item |
| Charges.DeferredDemandComesNext | src/huldra/db.py:2113-2145 | an open gate never defers, and the next claim makes every membership active |
| Charges.CancelFailsExactly | src/huldra/db.py:809-897 | cancelling a budget fails an item exactly when it is pending and the budget is its only demand; otherwise only that membership goes |
| Charges.ReferencesHold | src/huldra/migrations.py:95-118 | primary budget is a member, null iff there is none; memberships name existing budgets; pending cache keys are unique |
| Charges.RunKeeps | src/huldra/db.py:511-897 | the ledger invariant over any run of enqueue, claim, renew, reserve, check, cancel, release, complete, wake and gc |
| QueueInvariants.PrimaryIsFirst | src/huldra/db.py:3320-3347 | after memberships were deleted the primary budget is the first by creation time and id |
| QueueInvariants.ReserveKeeps | src/huldra/db.py:568-648 | a reservation keeps every row and budget invariant |
| QueueInvariants.CancelKeeps | src/huldra/db.py:809-897 | cancelling keeps them |
| QueueInvariants.EnqueueKeeps | src/huldra/db.py:2035-2198 | enqueueing and joining keep them, the unique pending key included |
| QueueInvariants.ReleaseKeeps | src/huldra/db.py:2471-2502 | a release by anybody keeps them or is rolled back |
| QueueMeaning.DirectReservation | src/huldra/db.py:553-566 | a request is charged to a budget exactly before its deadline and below its limit; the error is the deadline exactly when that has passed |
| QueueMeaning.BudgetAdmitsExactly | src/huldra/db.py:511-566 | a budget can be created for any positive limit and admits, of any run of requests, as many of those before its deadline as the limit allows |
| QueueMeaning.Reservation | src/huldra/db.py:568-648 | goes ahead iff there is unbudgeted demand or an active membership whose budget is before its deadline and charged for this attempt or below its limit; exactly such memberships stay |
| QueueMeaning.ReservationCharges | src/huldra/db.py:568-720 | one request more on exactly the budgets that take part, were not charged for the attempt, are before the deadline and below the limit, and none on a refusal; just these memberships are marked, and the gate closes |
| QueueMeaning.ReservationError | src/huldra/db.py:596-614 | which of the three errors a refused reservation reports |
| QueueMeaning.DeadlineCheck | src/huldra/db.py:737-773 | goes ahead iff the item exists and is unbudgeted or some active budget is before its deadline; exactly the memberships in time stay, and nothing else changes |
| QueueMeaning.DeadlineCheckError | src/huldra/db.py:737-773 | which of the three errors a refused recheck reports |
| QueueMeaning.JoinPaysFrom | src/huldra/db.py:2113-2145 | a joining budget pays for the running attempt iff its gate is open, and for the next one at the latest |
| QueueMeaning.JoinShowsWhen | src/huldra/db.py:2055-2153 | the row's time moves iff the join names a budget or changes the row |
| QueueMeaning.EnqueueLeavesDemand | src/huldra/db.py:2035-2198 | afterwards a pending row of the key carries the demand, the old one unchanged in when it can be claimed or a new one that can be claimed at once; refused only for a budget that does not exist |
| QueueMeaning.JoinKeepsOneContent | src/huldra/db.py:2056-2100 | the ids and other fields stored are one request's, whole; the timeout is the longer one, the default standing for none |
| QueueMeaning.ClaimKeepsOthersOut | src/huldra/db.py:2200-2301 | after a claim or a renewal at t the row can be claimed again exactly from t plus the time-to-live on; a renewal needs one's own claim |
| QueueMeaning.HandBackWaits | src/huldra/db.py:2457-2502 | a delayed row can be claimed again exactly from the given time on, a failed or completed one never |
| QueueMeaning.ReleaseWakes | src/huldra/db.py:2414-2450 | an item delayed for reserved ids can be claimed at once when one of them is released; no other row moves |
| QueueStore.Store.ReserveQueueItemUpstreamRequest | src/huldra/db.py:568-648 | the method over table rows makes exactly the reservation of the theorems; its second budget check never refuses |
| QueueStore.Store.ChargeBudgets | src/huldra/db.py:673-720 | charges all the budgets by one, or none when some does not exist, has reached its limit or is past its deadline |
| QueueStore.Store.Detach | src/huldra/db.py:3320-3347 | deletes memberships and installs the first one left |
| QueueStore.Store.CheckQueueItemDeadlines | src/huldra/db.py:737-773 | the method over table rows makes exactly the recheck of QueueMeaning.DeadlineCheck |
| QueueStore.Store.FailActiveUpstreamBudgetItems | src/huldra/db.py:809-897 | the row loop equals the simultaneous cancellation, and returns how many items failed |
| QueueStore.Store.EnqueueRequestForWork | src/huldra/db.py:2035-2198 | joins the pending row of the key, or queues a new one, or rolls back on an unknown budget |
| QueueStore.Store.JoinPending | src/huldra/db.py:2055-2153 | the column updates of a join amount to the merged item |
| QueueStore.Store.ClaimNextQueueItem | src/huldra/db.py:2200-2267 | claims a claimable row of the highest priority and, among those, the oldest; none only if no claimable row passes the filters |
| QueueStore.Store.ReleaseOrDelayQueueItem | src/huldra/db.py:2471-2502 | release without an ownership check, refused exactly by the unique index |
| QueueStore.Store.RenewLeasesIfOwned | src/huldra/db.py:2549-2584 | extends all the leases or none |
| QueueStore.Store.AcquireIdFetchReservations | src/huldra/db.py:2303-2356 | reserves all the ids or none, and reports the earliest expiry that blocks |
| QueueStore.Store.ReleaseIdFetchReservations | src/huldra/db.py:2394-2450 | drops the owner's reservations and wakes exactly the items waiting for the ids |
| QueueStore.Store.RenewWorkerFetchOwnership | src/huldra/db.py:2586-2651 | the three-row fence as statements |
| QueueStore.InvalidAreGone | src/huldra/db.py:580-614 | the two error queries of a reservation find exactly the memberships it must drop and the ones it charges |
| Joins.OrderDoesNotMatter | src/huldra/db.py:2046-2153 | the same requests in any order give the same priority, effective timeout, work kind, refresh interval, unbudgeted flag and budgets |
| Joins.JoinsMerge | src/huldra/db.py:2046-2153 | those are the maximum, the maximum, refresh if any, the minimum over refreshes, any, and the union |
| Leases.FenceExcludesOthers | src/huldra/db.py:2586-2651 | after a fence with time-to-live d no other owner takes the lease, passes that lease's fence or gets any reserved id before d is over, whatever others do |
| Leases.FencesExcludeEachOther | src/huldra/db.py:2586-2651 | a second owner's fence within that time fails and changes nothing |
| Leases.FenceIsAllOrNothing | src/huldra/db.py:2586-2651 | a fence passes iff all three rows are owned; failing changes nothing |
| Leases.OthersKeepStanding | src/huldra/db.py:2504-2584 | leases and reservations stand against any run of other owners until they expire |
| Leases.LeaseIsGrantedExactly | src/huldra/db.py:2504-2533 | granted iff absent, one's own or expired; then closed to others exactly until it expires |
| Leases.OwnLeaseIsGivenBack | src/huldra/db.py:2653-2664 | giving back one's own lease frees it at once; another's stays |
| Leases.RenewalIsAllOrNone | src/huldra/db.py:2549-2584 | several leases are extended together iff their names differ and all are one's own; no other lease moves |
| Leases.IdsAreReservedExactly | src/huldra/db.py:2303-2356 | all the ids or none, granted iff no other owner has an unexpired reservation of one; expired ones are dropped and no other moves |
| Leases.OwnHoldsAreExtended | src/huldra/db.py:2358-2392 | reservations are extended together iff all are one's own, expired or not; no other moves |
| Leases.OnlyOwnAreReleased | src/huldra/db.py:2394-2412 | exactly one's own reservations among the ids go; if there were any, waiting items are woken |
| Worker.SecondGateIsPaid | src/huldra/worker.py:188-222 | whoever passes the second ownership gate has a closed gate and every active budget charged for exactly this attempt |
| Worker.FetchIsPaidExactly | src/huldra/worker.py:209-222 | in every run, after the last deadline check somebody still wants the item, unbudgeted or by an active budget whose deadline has not passed, and the attempt is paid iff the row named the worker at the check |
| Worker.FetchIsPaidAndWanted | src/huldra/worker.py:188-222 | corollary: in runs whose hand-backs are timely, within the fence the row does name it |
| WorkerMeaning.FenceStep | src/huldra/worker.py:513-620 | a worker passes a gate iff the rows of its lease, its item and its ids name it; all three are then extended; a gate that fails changes no row, and only lost ids leave it the item to hand back |
| WorkerMeaning.ReservesStep | src/huldra/worker.py:188-208 | it goes on iff demand is unbudgeted or an active membership's budget is in time and charged or below its limit |
| WorkerMeaning.ChecksStep | src/huldra/worker.py:190-222 | it goes to the network iff at its last check demand is unbudgeted or some active budget is in time |
| WorkerMeaning.ReservesIdsStep | src/huldra/worker.py:664-689 | it goes on with the missing ids iff nobody else has an unexpired reservation of one, and then holds them all |
| WorkerMeaning.KeepsIdsStep | src/huldra/worker.py:730-749 | it keeps them iff all are still its own |
| Passes.EachAttemptPassesOnce | src/huldra/worker.py:188-222 | over every run the second gate is passed at most once for each attempt of an item |
| Passes.BudgetBoundsFetches | src/huldra/worker.py:188-222 | passes for attempts that a budget takes part in never exceed its charges, and so its limit |
| Worker.OneLiveWorkerPerItem | src/huldra/worker.py:88-222 | no two workers within their claims work on one item, in every run in which no release reopens an item of a live worker |
| Worker.ExclusionKeptExactly | src/huldra/db.py:2471-2502 | a step keeps that exclusion iff it is no such release |
| Worker.ReopenedItemIsShared | src/huldra/db.py:2200-2267 | once such an item is claimed again in time, two workers are live on it |
| Worker.HandBackTakesExactly | src/huldra/db.py:2457-2502 | a release or completion takes an item from a live worker iff the row names one other than the actor |
| Worker.TimelyRunIsExclusive | src/huldra/worker.py:439-511 | handing back before one's claim ends keeps exclusion |
| StaleRelease.TwoWorkersOnOneItem | src/huldra/db.py:2471-2502 | a run in which two workers are live on one item |
| StaleRelease.UnpaidWorkerIsCleared | src/huldra/worker.py:199-222 | a run in which a worker goes to the network while its row names another, whose attempt is not paid |
| StaleRelease.LateReleaseRaises | src/huldra/migrations.py:95-97 | a reachable state in which a worker's release violates the unique index |
| Worker.CompletedItemsAreServed | src/huldra/worker.py:105-135 | a completed queue item has a readable completed cache entry for its key, whichever path finished it |
| Worker.RunKeeps | src/huldra/worker.py:88-437 | the invariant of workers, broker, feeds and harvesters over every run |
| IdLists.ReadRequested | src/huldra/worker.py:662-663 | the requested ids once each, and what a single lookup finds for each |
| IdLists.MissingInOrder | src/huldra/worker.py:664-689 | the ids to fetch stand in the order of the request |
| IdLists.PlanIdListFetch | src/huldra/worker.py:664-689 | whatever was read before, a plan has everything, is blocked by another owner's reservation, or fetches exactly the missing ids and holds them |
| IdLists.ReleaseArrived | src/huldra/worker.py:711-718 | reservations of papers that arrived meanwhile are given back, and no others |
| IdLists.Revalidate | src/huldra/worker.py:719-749 | fetches exactly what is missing now, iff all of it was reserved and still is the worker's; otherwise complete or blocked |
| IdLists.ComposeAnswer | src/huldra/worker.py:360-402 | no answer exactly when a requested id has no paper that serves it; an answer lists each paper id once, only papers held or fetched, and one of its family for each requested id |
| IdLists.OrderedPapers | src/huldra/worker.py:789-801 | one paper per paper id, covering every requested id, in the order in which the request first asks for it |
| IdLists.AddLookup | src/huldra/worker.py:781-786 | a paper replaces what its id had, and fills its base id only when that is free |
| IdLists.InLookup | src/huldra/worker.py:769-786 | an id is found exactly when a paper was held for it or serves it |
| Limiter.FetchesAreSpaced | src/huldra/limiter.py:51-131 | in careful runs a request starts at least the interval after every earlier recorded end and never before a recorded cooldown is over |
| Limiter.NoteIsSafeExactly | src/huldra/limiter.py:51-131 | noting a start keeps every recorded outcome known iff the guards read are still the stored ones |
| Limiter.NoteBreaksSpacingExactly | src/huldra/limiter.py:51-131 | a note lets some request start too early iff the guards it overwrites admit only later starts |
| Limiter.GuardsAreExact | src/huldra/limiter.py:309-315 | the stored guards admit exactly the starts that spacing from every recorded outcome admits |
| Limiter.TimelyRunsAreCareful | src/huldra/limiter.py:51-131 | noting within the lease satisfies that condition |
| LateNote.LateNoteBreaksSpacing | src/huldra/limiter.py:51-131 | a concrete run without it in which a request starts inside a stored cooldown |
| Limiter.CooldownBounds | src/huldra/limiter.py:317-340 | a cooldown lies between the capped backoff or Retry-After and that plus the jitter; backoff never shrinks |
| Limiter.BackoffMultiplies | src/huldra/limiter.py:317-340 | no or one rate limit gives the safety floor, and each further one the multiplier times as much as the one before, capped |
| Limiter.RepeatedLimitsBackOff | src/huldra/limiter.py:176-250 | in every careful run the k-th rate limit since the last success stores a cooldown of at least the floor multiplied k - 1 times, capped, and at least Retry-After, and of at most their maximum and the jitter |
| Limiter.WaitsNoLonger | src/huldra/limiter.py:74-83 | in every careful run a request is refused for a cooldown iff the last rate limit is followed by no success and its cooldown is not over, and otherwise starts at once or when the interval after the last recorded end is over |
| Limiter.WaitIsLeast | src/huldra/limiter.py:309-315 | the wait ends at the earliest admissible time |
| Limiter.LeaseOutlastsTheRequest | src/huldra/limiter.py:83-92 | the lease asked for outlasts the wait, the request and one wait for the store |
| Limiter.OneActorHoldsTheLease | src/huldra/limiter.py:51-131 | two owner tokens within their lease are never both between taking and dropping it |
| HarvestRuns.RunningJobSumsItsPages | src/huldra/db.py:1313-1400 | while a job runs, under any interleaving of owners, its counters are the sums over the committed pages, its cursor is the last page's next token, and the papers are those of all the records |
| HarvestRuns.CommitsAreOneByOne | src/huldra/db.py:1315-1333 | a checkpoint commits the next page, or is stale and changes nothing durable |
| HarvestRuns.PagesAddUp | src/huldra/broker.py:598-655 | page by page equals all the records at once |
| HarvestRuns.StampIsLatest | src/huldra/broker.py:1870-1879 | the datestamp kept is the latest of any record |
| HarvestRecords.LastRecordDecides | src/huldra/db.py:1427-1501 | of several records about a version family the last one decides: its paper is what reading the id returns, or every row of the family is marked deleted with its OAI id, none added or removed |
| HarvestRecords.CommittedPapersRead | src/huldra/db.py:1427-1501 | in every run the papers read are those of the last records on the committed pages |
| HarvestRecords.OtherPapersStay | src/huldra/db.py:1427-1501 | in every run a paper that no committed record names reads as it did before |
| HarvestRecords.LastIdentifierIsKept | src/huldra/db.py:1443-1478 | of several records with one OAI identifier the last is kept |
| HarvestRecords.CountersCount | src/huldra/db.py:1427-1501 | the counters are the numbers of records that bring an undeleted paper and of those that delete |
| HarvestRecords.ResponseIsLast | src/huldra/broker.py:598-601 | the response day kept is that of the last page that has one |
| HarvestRuns.NoTokenIsConsumedTwice | src/huldra/broker.py:1852-1867 | committed pages consumed pairwise distinct tokens |
| HarvestRuns.GoesOnExactly | src/huldra/broker.py:1852-1867 | a further page follows iff the last one names a next token, has a record, and its token was consumed by no page so far |
| HarvestRuns.ErrorsExactly | src/huldra/broker.py:1852-1867 | which of the three errors is reported, from the pages alone |
| HarvestRuns.WithinBudgetExactly | src/huldra/broker.py:1836-1849 | the loop goes on iff the lease is the owner's, and pages, requests and time are below their budgets |
| HarvestRuns.PagesAreBounded | src/huldra/broker.py:598-655 | against a server with finitely many tokens no run commits more pages than tokens plus one, nor more than the page budget |
| HarvestRuns.HarvestUninterrupted | src/huldra/broker.py:392-655 | the page loop of one owner with its budgets, refusals and failures: it ends by the unconsumed tokens, stops short only at a budget or at trouble, otherwise has the server's pages, counters and outcome, and completes against a server whose pages go on with records and never come back to a token |
| HarvestRuns.CrashesChangeNothing | src/huldra/broker.py:262-331 | against a deterministic server every ended run, crashed and resumed anywhere, has the uninterrupted run's pages, counters, outcome, papers and watermark |
| HarvestRuns.EndedJobChangesExactly | src/huldra/db.py:1667-1690 | a step of any owner changes the row of an ended job iff it is the finish of an owner that gave up |
| HarvestRuns.EndedJobStays | src/huldra/db.py:1667-1690 | without such a finish the outcome stays for the rest of the run |
| HarvestRuns.StoppedJobTellsAPrefix | src/huldra/db.py:1648-1711 | a stopped job tells the counters of some first committed pages, with or without the page that failed, the token to go on with, and the dates of all of them |
| StaleFinish.StaleFinishOverwrites | src/huldra/db.py:1667-1690 | a run in which a completed job comes to read as stopped |
| HarvestInvariants.OwnTokenIsHarmless | src/huldra/broker.py:1852-1867 | a leftover failed-page row that puts the current token among the consumed ones changes no verdict |
| HarvestInvariants.HashesBetween | src/huldra/db.py:1402-1412 | the consumed hashes read are those of the committed pages and at most the cursor |
| HarvestInvariants.RunKeeps | src/huldra/broker.py:262-673 | the invariant of job, page rows, papers, watermark and all owners' variables |
| HarvestRuns.IoStaysInBudget | src/huldra/broker.py:455-502 | I/O counted at the fence never exceeds the request budget, and while the job runs the durable counter is never behind it |
| HarvestRuns.WatermarkMovesOnce | src/huldra/broker.py:657-673 | the watermark moves only for an unbounded request with every page committed, to the later of old and new, and is written when the job is completed |
| HarvestStore.Store.CheckpointOaiPage | src/huldra/db.py:1293-1400 | the statements of a checkpoint have the effect of the commit step, papers included, or raise and change nothing |
| HarvestStore.Store.ConsumedTokenHashes | src/huldra/db.py:1402-1412 | the hashes of all page rows |
| HarvestStore.Store.SetOaiWatermark | src/huldra/db.py:1563-1646 | the CASE expressions of the upsert, for both dates, the harvest credited and the time |
| HarvestStore.Store.CompleteOaiHarvestJob | src/huldra/db.py:1648-1711 | overwrites status, counters, error, cursor, current watermark and completion time, and keeps the dates |
| Watermarks.MarkIsLatest | src/huldra/db.py:1563-1646 | after any run of harvests each component is the latest non-null value ever set |
| Watermarks.RewritingMovesNothing | src/huldra/db.py:1563-1646 | setting one's values again after a crash moves nothing, whatever others set in between |
| Watermarks.StartIsNeverLate | src/huldra/broker.py:675-693 | the next incremental start is never later than its component, and covers the overlap |
| Watermarks.StartExactly | src/huldra/broker.py:675-693 | a day given with the request goes first; without one a harvest starts at the beginning unless it is incremental and the watermark has a day |
| Window.PagesTile | src/huldra/broker.py:1254-1288 | each position of the window belongs to exactly one page, and that page is within the computed count |
| Window.PagesStartInside | src/huldra/broker.py:1272-1288 | every planned page starts inside the window |
| Window.PlanPages | src/huldra/broker.py:1271-1290 | the planning loop yields the computed number of pages and counts the uncached ones |
| Window.PlanFollowups | src/huldra/broker.py:1150-1333 | admission by page, request and deadline budgets; an admitted plan has at most the allowed pages, its uncached pages fit the request limit, and a spaced schedule of them meets the deadline |
| Window.AdmissionExactly | src/huldra/broker.py:1254-1333 | a plan is refused iff a budget is not met or the counter is gone, with the error of the first: pages, requests, time |
| Window.CheckFirstPage | src/huldra/broker.py:1150-1253 | exactly when a window goes on from its first page, and otherwise its coverage, counts and error |
| Followups.QueueFollowups | src/huldra/broker.py:1335-1372 | all planned pages are recorded and the uncached ones queued, while every clock reading is before the deadline; after a late one nothing of the budget stays pending and only the first page stays recorded |
| Followups.StopAtDeadline | src/huldra/broker.py:1384-1407 | a window stopped at its deadline leaves no pending item with its budget |
| Window.DeadlineCheckIsExact | src/huldra/broker.py:1951-1961 | the deadline check admits exactly the batches some spaced schedule of which starts in time |
| Window.Finalize | src/huldra/broker.py:1466-1537 | complete iff all pages are readable, all results are of distinct families, the total is known, from the window or its first readable page, and there are enough |
| Window.OverlapExactly | src/huldra/broker.py:1506-1514 | as many families as results iff no two results share one |
| Window.CompleteIsWhole | src/huldra/broker.py:1514-1522 | drawn from total - start families, the results are enough iff they are the whole set |
| Window.FixedResultsAreComplete | src/huldra/broker.py:1254-1294 | pages that are their slices of one fixed list of distinct families join to it and are called complete |
| Papers.ReadAfterLegacyWrite | src/huldra/db.py:3164-3188 | reading the id of a legacy write returns the written data, whatever the family held |
| Papers.ReadAfterOaiWrite | src/huldra/db.py:3146-3161 | the same for an OAI write of a base id |
| Papers.LoneRowStays | src/huldra/db.py:3129-3188 | any writes leave a lone OAI base row the only row of its family |
| Papers.BaseReadIsLatest | src/huldra/db.py:471-478 | a base id without a row of its own reads as the latest version there is |
| Papers.VersionReadFallsBack | src/huldra/db.py:471-478 | a version without a row of its own reads as the base row iff that came from OAI |
| Papers.OaiGoesToLatest | src/huldra/db.py:3146-3161 | an OAI paper without a row of its own id is written to the latest row of its family, columns and all |
| Papers.LegacyKeepsOaiColumns | src/huldra/db.py:204-290 | a legacy write leaves the OAI columns and the deleted flag of the row it meets |
| Papers.MarkedPaperReadsDeleted | src/huldra/db.py:480-508 | marking a paper deleted touches that row only and shows when it is read |
| Papers.FamilyIsMarked | src/huldra/db.py:1479-1501 | a deletion marks every row of the family, keeps the papers, and a null date keeps the dates |
| PaperStore.Store.GetPapersByIds | src/huldra/db.py:449-469 | one query by id and the two alias queries find for each id what a single lookup finds |
| PaperStore.Store.MarkPaperDeleted | src/huldra/db.py:480-508 | the update of one row |
| PaperStore.Store.UpsertPaper | src/huldra/db.py:204-290 | the upsert with its aliasing and its kept OAI columns |
| PaperStore.Store.UpsertOaiRecords | src/huldra/db.py:1427-1501 | the record loop makes exactly the writes of HarvestRecords.LastRecordDecides, with its tombstones and its three counts |
| PaperStore.Store.RecordCompletedCacheEntry | src/huldra/db.py:292-383 | the loops that upsert, deduplicate and number the papers |
| PaperStore.Store.CompletedCacheIntegrityFailure | src/huldra/db.py:407-434 | comparing sorted positions with a range finds exactly a missing position |
| PaperStore.SortedIsRange | src/huldra/db.py:418-433 | a sorted list of n positions is 0..n-1 iff none of these is missing |
| PaperStore.Store.GetCachedPapers | src/huldra/db.py:436-447 | the matched rows by position |
| PaperStore.FindBest | src/huldra/db.py:3232-3233 | the loop finds the preferred id of a family |
| Cache.CompletedIsReadable | src/huldra/db.py:390-434 | in every reachable store a completed entry passes the integrity check |
| Cache.ReadsBackInOrder | src/huldra/db.py:292-447 | whatever is written later, a recorded entry reads back exactly its rows, once each, in recorded order |
| Cache.LastPaperShows | src/huldra/db.py:204-290 | of several papers merged into one row the row shows the last |
| Cache.DedupKeepsFirst | src/huldra/db.py:313-316 | without repetitions the list keeps its order, each id where it came first |
| Cache.IntegrityExactly | src/huldra/db.py:407-434 | the check passes exactly the entries that list existing rows, each once, at the positions 0, 1, 2, ... |
| Cache.FailureHidesNothing | src/huldra/db.py:1739-1811 | a failure changes no answer, shows beside it, and gives its status to an entry that was never completed |
| Cache.AnswerClearsFailure | src/huldra/db.py:292-383 | an answer clears failure and cooldown, counts exactly the rows written, and moves no other entry |
| Cache.RequestsAddUp | src/huldra/db.py:1739-1811 | over any run the upstream total of a key is the sum of what its completions and failures spent |
| Cache.DueExactly | src/huldra/db.py:1998-2030 | when an entry is due for a refresh, and the date it keeps |
| Cache.DueFromTheEarlier | src/huldra/db.py:1998-2030 | recorded with one interval and asked for with another it is due from the earlier date on, whatever papers and failures came between |
| Cache.ListStays | src/huldra/db.py:1739-1811 | no failure and no write to another key makes a completed entry unreadable |
| Cache.RefreshRepeatsExactly | src/huldra/db.py:1998-2030 | after a refresh came due, another one comes due within the interval iff the old completion is as old as the interval by then |
| Retention.Store.Gc | src/huldra/db.py:2890-2956 | the statements in their order delete what the preview counted in the state it found |
| Retention.PreviewIsExact | src/huldra/db.py:2997-3040 | the preview counts are the numbers of rows gone |
| Retention.SecondPassIsIdle | src/huldra/db.py:2890-2956 | a second pass finds and changes nothing |
| Retention.FilterMeansDone | src/huldra/db.py:62-135 | the filter as written, subqueries, CASE, COALESCE and null dates included, selects exactly the old jobs that are terminal or every page of which had work, all of it terminal and old |
| Retention.OnlyFinishedWorkGoes | src/huldra/db.py:2890-2956 | gc deletes an event iff it is old, an item iff it completed or failed before the cutoff, and a job iff it is done in that sense; cache entries stay |
| Retention.NoReferenceDangles | src/huldra/db.py:2933-2947 | no surviving item, membership or job loses its budget, and no unreferenced budget stays |
| Retention.ItemsFirstExactly | src/huldra/db.py:2910-2932 | with the queue items deleted first, a handed-off job that the preview counts would still go iff every page has a cache entry |

## Left out

- HTTP, the command line, FastAPI, the Python client and the fetchers: upstream is an arbitrary or, where said, a deterministic function.
- Atom and OAI XML parsing: pages and records are abstract values.
- SQLite, write-ahead logging, vacuum, migrations and JSON: transactions are atomic, and only key constraints are kept.
- Event rows (except their age for gc), heartbeats, status summaries, diagnostics columns and message texts: they decide nothing.
- Readiness, maturity, submitted-date windows, transient backoff and settings validation: one-branch facts; validated settings are preconditions.
- Rounding of timestamps to microseconds, and the columns acquired_at, first_seen_at and last_seen_at.
- Polling in drains and waits: real-time behaviour only.
- Creating a second job for a scope, and looking for a resumable token of an earlier job: runs are about one job, its request and its pages.
- The effect of the watermark on the first page's start date within a run: pages are what the server returned, and crash refinement takes a server that answers by token.
- Reads between two transactions of one maintenance call: a window's verdict is taken over one snapshot of its pages.
- Processes that share an owner token: an actor is one sequence of steps. A resumed harvest takes the `upstream_fetch` token of its predecessor (src/huldra/broker.py:324), so the two are one actor to the lease.
- Limiter.FetchesAreSpaced: assumes that requests start and outcomes are recorded within the lease, the exact condition on start notes given above, and distinct owner tokens.
- Limiter.OneActorHoldsTheLease: speaks of owner tokens, as above.
- HarvestRuns.CrashesChangeNothing: speaks of jobs that ended as completed or by a token error; a run stopped by a budget or a failure has committed a prefix of the same pages.
- Papers.ReadAfterLegacyWrite: OAI columns and the deleted flag of the row are the store's, since a legacy write leaves them alone.
- Followups.QueueFollowups: other processes act between its transactions in the source; here the loop runs alone, and what it says of the queue is said of the moment after its last transaction.
