# The concurrency kernel of the VS Code host

The VS Code host of Singularity Flow keeps one window responsive while several panels, commands and
watchers read and write Git checkouts through a command-line engine. Small schedulers decide which
read runs, which answer may be shown, and who owns what. This project models them and proves what they
promise over every run.

## How to read it

One event is one stretch of code between two awaits. Each module has a state as a value, a step function
and runs as sequences of events; theorems are about all runs, or about all states that satisfy the
module's invariant. Beside it a class holds the same state in fields that its methods change in place as
the source does, and each method's contract ties the new state to the step function. Names
(of jobs, subscribers, flights, leases, batches, checkouts, requests) are the indices of the events that
created them. Fields called history are read by nothing but theorems.

| file | what it models |
|---|---|
| ReadPool.dfy | the process-wide read pool: four slots, a reserved foreground slot, ageing |
| ReadHub.dfy, Client.dfy | shared reads, result caches and the mutation fence, across clients |
| ReadWaits.dfy, ReadReuse.dfy | when a read waits, and what a request finds |
| ReadSlots.dfy | the hub's jobs in the pool's slots, each freed a turn after its run has settled |
| Snapshots.dfy, RetryBudget.dfy | snapshots and their slices; the retry deadline |
| Store.dfy, StoreRuns.dfy, WorkspaceStore.dfy | the workspace store: refresh loop, leases, moves |
| StoreTurns.dfy | what each turn of the store does, in terms of the state it meets |
| StorePayloads.dfy, StoreReceipts.dfy, StoreAcquisitions.dfy | where heavyweight payloads come from, what a receipt meets, and what an acquisition waits for |
| System.dfy | the store reading through a client of the hub |
| SingleFlight.dfy | latest single flight, microtask coalescer, story refresh gate |
| RenderGate.dfy, PanelTurns.dfy | the retained panel in front of the store |
| WatcherFence.dfy, WatcherTurns.dfy | the watcher echo fence |
| IntakePreparation.dfy, IntakeTakes.dfy | ownership of the speculative checkout, and what a take gets |
| StatusWorker.dfy | the status worker client and its worker processes |
| Shell.dfy, Progress.dfy, ChatReferences.dfy | the text transformations |
| Wrappers.dfy | the option type |

What the world decides is an input of the events: clock readings, what Git and child processes answer,
when timers and microtasks run, and what a cache holds.

## Where a promise has an exception

Each of these is a lemma, with the condition under which the promise holds.

- A changed refresh made between the loop's last check and its `finally` waits for a read that began
  before it (`ChangeInTheGapIsLost`; the exact condition is in `RequestsAreFollowedUp`). The comment above
  `refreshLoop` promises the follow-up without this exception. So does the comment in `ensureSlices` for a
  panel that asks for a slice: in the gap it waits for a read that may never have asked for it
  (`AcquisitionInTheGapIsMissed`; the exact condition is in `AcquisitionsWaitForTheirSlices`).
- `LatestSingleFlight` has the same gap (`SingleFlights.SettleGapIsReachable`), and its comment does not
  mention that a rejection reaches newer requests (`RejectionReachesNewerRequests`; both exact conditions are
  in `ValuesAreFresh`).
- A slice released while a read is in flight comes back with its answer (`ReleasedSliceComesBack`; the exact
  condition is in `UnloadedPayloads`). A receipt brings its digest back, and is announced as changing nothing
  (`ReturningDigestIsUnannounced`; the exact condition is in `HonestReceiptsAreFaithful`).
- SGOS comes out of the cache though nobody holds a lease on it, which the comment above
  `withoutEphemeralSlices` rules out (`CachedSgosIsUnleased`; the exact condition is in `WhatTheCacheBrings`).
- The error of a refused read is not shown when the configuration read of its recovery is superseded
  (`SupersededRecoveryHidesTheRefusal`; the exact condition is in `RefusalIsShown`).
- A panel is not told of digests that appear with an unchanged aggregate revision
  (`FullChangesAreFaithful`, with the exact condition).
- A slice of a recovery can carry the digest of the inventory with the payload of its own read
  (`RecoveryKeepsSlicesWhole`, with the exact condition).
- A batch captured before a reset of the watcher fence and restored after it carries an event of the old
  repository over (`StaleBatchCrossesReset`; the exact condition is in `ResetIsABoundary`).
- A wall clock that steps back between the two readings of one dispatch gives the reserved slot to a
  background read (`ClockSteppingBackFillsTheReservedSlot`).
- A command printed without arguments is read back as its own name (`PrintedArgumentsAreReadBack`).
- The tokenizer takes a backslash before the quote that closes a double-quoted text for an escape
  (`DoubleQuotedIsReadBack`, with the exact condition), and loses white space that is escaped at the very end of
  a command, because the command is trimmed first (`CommandsAreRead`, with the exact condition).

## Model

| member | source | states |
|---|---|---|
| Systems.PublishedAfterAWriteIsReadAfterIt | apps/vscode/src/cli/client.ts:819-833 | Store, shared reads and mutation fence together, any number of clients: once a write of the checkout has begun or settled and a changed refresh followed it, every read whose outcome goes into what the store publishes, the attempt, the inventory of a recovery and its independent slices, is answered by data requested after that write, whether it came from a cache, a joined job or a new one, and every snapshot that goes into it is what the job so requested returned. |
| Systems.RefreshAfterAWriteReadsIt | apps/vscode/src/state.ts:581-597 | The companion: when the flight such a refresh waits for has settled, its last read was requested after the write, and the snapshot that answered it is what the job so requested returned, unless the flight was aborted, the store disposed, or the refresh fell into the settle gap. |
| Systems.PublishedIsBrought | apps/vscode/src/state.ts:490-542 | What a publication shows is made of the answers to those reads: the attempt's, laid over what was shown if it is a receipt, or the inventory with the independent slices laid over it. |
| StoreRuns.RecoveryIsDated | apps/vscode/src/state.ts:529-542 | Over every run a recovery under way dates from its own flight's turns: the inventory was asked for in the turn that refused the attempt, the independent slices in the turn in which that inventory was answered, and it keeps that answer unchanged. |
| Systems.AnswersAreReturned | apps/vscode/src/cli/client.ts:744-868 | Whatever answers a read of the store, an attempt, an inventory or independent slices, cached, joined or new, is what one completed job returned, the one the answer dates from. |
| Systems.PublishedIsOfThisCheckout | apps/vscode/src/extension.ts:5526-5543 | When the client is only rebound in the turn in which the store is told of the move, nothing is published from another checkout than the one the window has then: the client stays bound to one checkout from the attempt to the publication, and the answer to every read that goes into it, those of a recovery included, was requested as a read of that checkout by whoever requested it. |
| ReadSlots.JobsShareTheSlots | apps/vscode/src/cli/client.ts:870-908 | Hub and pool together, over every run of all clients: a job is queued exactly while its ticket is, and then somebody waits for it; the slots in use are those of the jobs that read and of the runs that have settled and are not yet released, and at most four. |
| ReadSlots.MutationGivesTheSlotBack | apps/vscode/src/cli/client.ts:870-880 | A dispatched job reads if and only if no mutation of its checkout is in flight; otherwise it neither reads nor waits, its run has settled, and when its ticket is released the slots in use are as before. |
| ReadSlots.SlotsAreHeldUntilReleased | apps/vscode/src/cli/client.ts:116-134 | Over every run a settled run holds its slot if and only if it has not been released, and a released ticket neither waits nor holds a slot ever after. |
| ReadSlots.WaitingJobsAreNotOvertaken | apps/vscode/src/cli/client.ts:98-156 | The overtaking bound for jobs: while a job somebody is waiting on keeps its ticket, through mutations, departures and rebinding of other clients, non-interactive reads that start were ahead of it, and nothing behind it passes an interactive one. |
| ReadPools.ChoiceExists | apps/vscode/src/cli/client.ts:103-114 | For every queue and clock there is an earliest ticket of least effective rank among the eligible ones, or none is eligible. |
| ReadPools.ChoiceIsUnique | apps/vscode/src/cli/client.ts:103-114 | That ticket is unique, so the specification of the search determines its result. |
| ReadPools.ChoiceServes | apps/vscode/src/cli/client.ts:98-114 | The choice in terms of the priority and time a ticket was queued with: an interactive ticket is passed over only for an earlier interactive one; without one, a normal ticket or one that has waited 30 seconds only for an earlier such; a background ticket that has waited less is taken only if there is neither, and only the earliest. |
| ReadPools.DispatchServes | apps/vscode/src/cli/client.ts:116-134 | A dispatch takes that ticket and a slot, and counts it as a background read exactly if it was queued as one and has waited less than 30 seconds when it starts. |
| ReadPools.TicketsAreAsAsked | apps/vscode/src/cli/client.ts:136-154 | Over every run a queued ticket has waited since the event that queued it, and has the most urgent priority it was queued with or raised to since. |
| ReadPools.TicketsLeaveToRun | apps/vscode/src/cli/client.ts:116-147 | A ticket leaves the queue exactly to run or because it is cancelled. |
| ReadPools.TheQueueKeepsItsOrder | apps/vscode/src/cli/client.ts:98-154 | Tickets that stay keep their order, and a new one stands last. |
| ReadPools.PoolAccounting | apps/vscode/src/cli/client.ts:116-134 | Over every run, whatever the clock does, the counters equal the tickets running and at most four run; if no dispatch sees the clock step back between its two readings, at most three of them started as background. |
| ReadPools.ReservedSlotIsLostExactly | apps/vscode/src/cli/client.ts:116-134 | A dispatch gives the reserved slot away if and only if three background reads run and the ticket chosen as foreground counts as background when it is started, which needs a clock that steps back. |
| ReadPools.ClockSteppingBackFillsTheReservedSlot | apps/vscode/src/cli/client.ts:116-134 | A concrete run in which the clock does step back and a fourth background read takes the reserved slot: the condition in PoolAccounting is needed. |
| ReadPools.BoundedOvertaking | apps/vscode/src/cli/client.ts:98-156 | For every interleaving of queue, raise, cancel, dispatch and finish under a monotone clock, a normal or promoted ticket is overtaken only by tickets queued ahead of it or interactive ones. |
| ReadPools.DrainIsARun | apps/vscode/src/cli/client.ts:116-134 | On every clock one call of the drain loop is a run of single dispatches, and on a clock that never steps back a timely one, so every theorem about runs covers it. |
| ReadPools.DrainKeepsCounts | apps/vscode/src/cli/client.ts:116-134 | The counters survive a real drain on every clock, and the reserved slot does unless a dispatch saw the clock step back. |
| ReadPools.DrainServesForeground | apps/vscode/src/cli/client.ts:116-134 | After a drain a ticket that counts as foreground at the drain's last reading, promoted meanwhile or not, is still queued only if all four slots are used, and, unless a dispatch of the drain saw the clock step back, at least one of them by a foreground read. |
| ReadPools.ReadPool.NextReadTicket | apps/vscode/src/cli/client.ts:103-114 | The search loop returns the earliest interactive ticket if one is queued, else the earliest that is normal or has waited 30 seconds, else the earliest of all if a background read may run, else none. |
| ReadPools.ReadPool.QueueRead | apps/vscode/src/cli/client.ts:136-141 | A new ticket joins the end of the queue and nothing else changes. |
| ReadPools.ReadPool.CancelRead | apps/vscode/src/cli/client.ts:142-147 | A queued ticket is removed; a running one keeps its slot. |
| ReadPools.ReadPool.RaiseRead | apps/vscode/src/cli/client.ts:148-154 | A ticket is only ever raised, and keeps its place. |
| ReadPools.ReadPool.DrainReads | apps/vscode/src/cli/client.ts:116-134 | The loop with its two clock readings per ticket does what the drain specification does. |
| ReadPools.ReadPool.FinishRead | apps/vscode/src/cli/client.ts:128-132 | The completion closure gives back exactly the counters it took, then drains. |
| ReadHubs.SharedReadInvariant | apps/vscode/src/cli/client.ts:834-908 | Over every run of every client: a shared job is live, one per key, and every live keyed job is shared; a job is live exactly while it has subscribers; a subscriber is pending exactly while its job lists it and is settled at most once; a client's read jobs are exactly those it subscribes to. |
| ReadHubs.ReadYourWrites | apps/vscode/src/cli/client.ts:700-708 | A read requested after a mutation of its checkout began or settled, or its reads were invalidated, through any client, is answered by nothing that was requested before. |
| ReadHubs.CacheHitProvenance | apps/vscode/src/cli/client.ts:782-795 | A cache hit is the value a completed read of the same request on the same checkout returned at most 250 ms ago, and no mutation or invalidation of that checkout happened since that read was requested. |
| ReadHubs.AnswersAreOfThisCheckout | apps/vscode/src/cli/client.ts:782-842 | Whatever answers a read, cached value, joined job or new one, was requested at the latest now, as the same read, by a client bound to the same checkout. |
| ReadHubs.SubscribersSettleOnce | apps/vscode/src/cli/client.ts:744-756 | A subscriber, once settled, stays settled exactly once over every continuation of the run. |
| ReadHubs.LaunchesMeetNoMutation | apps/vscode/src/cli/client.ts:870-880 | A job launches only from its place in the pool, with a subscriber and no mutation of its checkout in flight; one that meets a mutation gives its place back unstarted. |
| ReadHubs.AbandonedNeverLaunches | apps/vscode/src/cli/client.ts:729-742 | A job abandoned before it started never starts. |
| ReadHubs.RebindingIsIsolated | apps/vscode/src/cli/client.ts:691-697 | Rebinding one client rejects all of its own pending subscribers and leaves every other subscriber, and the jobs they wait on, alone. |
| ReadHubs.RebindingForgets | apps/vscode/src/cli/client.ts:691-697 | A rebound client keeps no cached result and no job of its old checkout. |
| ReadHubs.BindingStays | apps/vscode/src/cli/client.ts:691-697 | Over every run a client stays bound to its checkout until it is rebound itself. |
| ReadWaits.NewReadsAreQueued | apps/vscode/src/cli/client.ts:903-908 | Over every run a job that a request has just created, waited for by that request alone, takes a place in the pool at once if and only if no write of the checkout its client is bound to has begun and not settled. |
| ReadWaits.UnstartedReadsAreQueued | apps/vscode/src/cli/client.ts:870-908 | Over every run a read that is waited for and has not started is in the pool, except exactly while it waits for the end of the writes that were in flight when it was asked for or met its slot. |
| ReadWaits.OperationsAreWrites | apps/vscode/src/cli/client.ts:819-832 | Over every run the operations of the hub are exactly the writes that have begun and not settled, each with the checkout its client was bound to then. |
| ReadWaits.FencesAre | apps/vscode/src/cli/client.ts:691-710 | What fences a checkout, spelled out: a write of it that begins or settles, and the client bound to it that invalidates, is disposed of or moves away. |
| ReadWaits.DepartureIsItsOwn | apps/vscode/src/cli/client.ts:729-742 | A subscriber that leaves is rejected, and alone: its job goes on for the others as it was; without others it is aborted, shared no more, and over at once if it had not started. |
| ReadReuse.AnswersAreReused | apps/vscode/src/cli/client.ts:782-795 | Over every run a client whose cacheable read returns while it still waits, and that has forgotten nothing since on a checkout not fenced since, is given the same value again for the same request for 250 ms. |
| ReadReuse.LiveReadsAreJoined | apps/vscode/src/cli/client.ts:834-868 | Over every run, while a cacheable read is waited for and its checkout has not been fenced since, every further request for it, of any client bound to that checkout, joins it or is given a cached answer: none starts a second one. |
| ReadReuse.RequestsSubscribe | apps/vscode/src/cli/client.ts:782-868 | A request is refused exactly if it was cancelled before it was made; refused or answered from the cache it changes nothing, and otherwise it adds one subscriber of its own to the job it waits on, and nothing else to a job it joins. |
| Clients.LeaveInTurn | apps/vscode/src/cli/client.ts:719-727 | Rejecting a client's subscribers one after the other, in any order, is rejecting them together. |
| Clients.StoreTwice | apps/vscode/src/cli/client.ts:850-857 | Leaving one answer in a cache twice, for two subscribers of one client, is leaving it once. |
| Clients.NewestAnswerIsKept | apps/vscode/src/cli/client.ts:853-856 | A stored answer is found again, the cache holds at most 32, and storing costs no unexpired entry but the oldest of a full cache. |
| Clients.NextAnswered | apps/vscode/src/cli/client.ts:744-756 | Answering subscribers one by one leaves each client what answering them all at once leaves it. |
| Clients.LeavingIsAStep | apps/vscode/src/cli/client.ts:729-742 | leaveRead of a pending subscriber is what the hub specifies for one departure. |
| Clients.Prune | apps/vscode/src/cli/client.ts:854-854 | The loop over the cache drops exactly the expired entries. |
| Clients.ReadHub.LeaveRead | apps/vscode/src/cli/client.ts:729-742 | The event of one departure: the owner's promise is rejected, and the last departure aborts the job, unshares it, and finishes it if it had not started. The hub's invariant holds again. |
| Clients.ReadHub.LeaveOwnReads | apps/vscode/src/cli/client.ts:719-727 | The nested loops reject exactly the client's pending subscribers, and each once. |
| Clients.ReadHub.InvalidateReadResults | apps/vscode/src/cli/client.ts:712-727 | The read epoch advances and the cache empties; only a cancelling call rejects subscribers. |
| Clients.ReadHub.InvalidateReads | apps/vscode/src/cli/client.ts:700-708 | The event of an invalidation: the checkout's epoch advances for every client and this client's cache empties; what is requested next is newer than the fence. The hub's invariant holds again. |
| Clients.ReadHub.UseRepository | apps/vscode/src/cli/client.ts:691-697 | The event of a rebind: a change of repository invalidates, rejects the client's own subscribers and rebinds; the same repository changes nothing. The hub's invariant holds again. |
| Clients.ReadHub.Dispose | apps/vscode/src/cli/client.ts:710-710 | The event of a disposal: it invalidates and rejects the client's own subscribers. The hub's invariant holds again. |
| Clients.ReadHub.BeginMutation | apps/vscode/src/cli/client.ts:819-826 | The event of a write's launch: it fences the checkout first and joins the mutations in flight. The hub's invariant holds again. |
| Clients.ReadHub.SettleMutation | apps/vscode/src/cli/client.ts:827-832 | The event of a write's end: it leaves the mutations in flight, fences again and empties its client's cache. The hub's invariant holds again. |
| Clients.ReadHub.RequestRead | apps/vscode/src/cli/client.ts:782-868 | The event of a read: a refusal, a cached value, a joined job or a new one, and the hub changes accordingly; a new job has that request as its only subscriber and is queued exactly if no operation in flight writes the checkout of its client. The hub's invariant holds again. |
| Clients.ReadHub.StartJob | apps/vscode/src/cli/client.ts:874-880 | The event of a slot: it launches the read or is given back. The hub's invariant holds again. |
| Clients.ReadHub.FinishRead | apps/vscode/src/cli/client.ts:744-756 | The event of a read's end: the loop answers every subscriber once, whichever client owns it, and caches for those whose epochs still match. The hub's invariant holds again. |
| Clients.ReadHub.Depart | apps/vscode/src/cli/client.ts:729-742 | The code of leaveRead, field by field. |
| Clients.ReadHub.EnqueueJob | apps/vscode/src/cli/client.ts:870-876 | The event after the wait for mutations: a job still waited for takes a place in the pool. The hub's invariant holds again. |
| Snapshots.ChangesCompose | apps/vscode/src/state.ts:141-166 | Between exact snapshots no slice that differs over two steps is missed by both steps. |
| Snapshots.UnchangedIsEqual | apps/vscode/src/state.ts:141-166 | Between exact snapshots a slice with a digest is unnamed exactly if its digest is the same. |
| Snapshots.FirstSnapshotChangesAll | apps/vscode/src/state.ts:141-166 | The first snapshot changes every slice it lists or has a digest for; losing the snapshot changes none. |
| Snapshots.ListedWithoutDigestIsMissed | apps/vscode/src/state.ts:141-166 | A slice listed without a digest can be missed by both steps: the digest in ChangesCompose is needed. |
| Snapshots.CompatibilityIsAllOrNothing | apps/vscode/src/state.ts:155-165 | Without digests the aggregate revision names all included slices or none, and none exactly if it is present and equal. |
| Snapshots.WithoutLeavesNoTrace | apps/vscode/src/state.ts:104-124 | Dropping slices takes payload, listing, digest and aggregate revision together and touches no other slice. |
| Snapshots.WithoutTwice | apps/vscode/src/state.ts:104-124 | Dropping slices one by one is dropping them together. |
| Snapshots.RecoveryKeepsSlicesWhole | apps/vscode/src/state.ts:87-101 | In a merged recovery each slice's payload comes from the read that brought it or from the inventory, its digest from the same source if and only if not that the read gave none and the inventory did, and the aggregate revision from the inventory if it has one. |
| Snapshots.SkippedReceiptIsInvisible | apps/vscode/src/state.ts:502-518 | Keeping the object for an equal receipt shows what laying the receipt over it would show; no receipt touches a payload, and what it lists and its revision replace what was shown, where it has them. |
| RetryBudgets.BackoffStaysWithin | apps/vscode/src/state.ts:478-486 | However long an attempt took, the wait after it stays within the deadline anchored at the start of the iteration. |
| StoreRuns.RetriesStayOnBudget | apps/vscode/src/state.ts:457-488 | Over every run with a monotone clock and timers that do not fire early, one iteration makes at most four attempts, asks to sleep at most 3,900 ms in all, and no wait reaches beyond 3,900 ms after the iteration began. |
| WorkspaceStores.StoreInvariant | apps/vscode/src/state.ts:449-558 | Over every run: one current flight, attempts that ask for all that is loaded, receipts that certify what is shown, honest loading state, and lease counts that match the leases. |
| StoreRuns.PublicationSafety | apps/vscode/src/state.ts:449-558 | What the loop publishes comes from the current flight, from an iteration begun after the last changed refresh, slice addition or move, and from the current repository. |
| StoreRuns.OldFlightsAreSilent | apps/vscode/src/state.ts:581-597 | No event of a flight that is not current changes what is shown or clears the current flight. |
| StoreRuns.NothingFromBeforeTheMove | apps/vscode/src/state.ts:255-283 | Nothing shown, snapshot or error, was read before the last move, including moves away and back, and the spinner turns exactly while the current loop runs. |
| StoreRuns.RequestsAreFollowedUp | apps/vscode/src/state.ts:301-322 | When the flight that a changed refresh or slice addition waits for has settled, and was neither aborted nor disposed of, its last iteration began at or after the request if and only if the request did not fall between the loop's last check and the finally; that read asked for what was loaded when it began. |
| StoreRuns.SettleGapIsReachable | apps/vscode/src/state.ts:589-595 | A concrete run that ends in the settle gap. |
| StoreRuns.ChangeInTheGapIsLost | apps/vscode/src/state.ts:589-595 | Every changed request made there waits for the flight that already read and starts no other read. |
| StoreRuns.OwedAnswersAreFull | apps/vscode/src/state.ts:301-308 | Until a full answer has been published after a move or a slice addition, every attempt that begins asks without a receipt. |
| StoreRuns.FullReadCoversLoaded | apps/vscode/src/state.ts:463-473 | A running current attempt asked for everything that is loaded now; what it brings beyond that was given back while it ran. |
| StoreRuns.ReceiptIsCertified | apps/vscode/src/state.ts:502-518 | A receipt that is laid over the shown snapshot certifies exactly it, if and only if no payload was dropped since the attempt began. |
| StoreRuns.ReleaseDuringReadComesBack | apps/vscode/src/state.ts:397-425 | For every state with a read in flight: when the last lease on a slice ends during the read, a full answer is shown as it came, and a receipt brings back the slice's digest alone. |
| StoreRuns.RecoveryIsAssembledBySlice | apps/vscode/src/state.ts:531-542 | A recovery shows each leased independent slice as its own read brought it and everything else as the configuration inventory has it; the digest comes along except exactly when that read gave none and the inventory did. |
| StoreRuns.RefusalIsShown | apps/vscode/src/state.ts:533-554 | Over every run, with any events in between: when a recovery ends, the error of its flight's last refused read is shown, over the recovery or over what was shown before, if and only if no request superseded the iteration and the reply was not a superseded configuration read or one that failed after abort or disposal; otherwise error and snapshot stay as they were. |
| StoreRuns.RecoveryCarriesTheRefusal | apps/vscode/src/state.ts:529-542 | Over every run what a recovery carries is the error with which the last attempt of its flight was refused, and it has been recovering since. |
| StoreRuns.SupersededRecoveryHidesTheRefusal | apps/vscode/src/state.ts:546-551 | A concrete run in which the configuration read is superseded: no error is shown and the spinner stops. |
| StoreRuns.StaleUntilConfirmed | apps/vscode/src/state.ts:59-64 | Over every run what is shown is marked stale if it came from the cache and the engine has not confirmed it since, and is unmarked only if the engine answered after the cache was last used. |
| StoreTurns.ErrorsStandUntilTheNextSuccess | apps/vscode/src/state.ts:502-556 | Over every run an error is shown if and only if it is that of the latest refusal told to listeners, and no answer of a standing iteration, move or snapshot out of the cache has come since. |
| StoreTurns.AnswersAreShown | apps/vscode/src/state.ts:502-527 | An answer of the generation that stands is shown, itself or as a receipt over what was shown, and clears error, spinner and stale mark; only a full one pays what is owed. |
| StoreTurns.PublishesWhen | apps/vscode/src/state.ts:490-556 | The loop tells its listeners of an answer or a refusal that nothing has superseded, and that the spinner stops when the engine gave the read up; of nothing else. |
| StoreTurns.FailuresAreRetried | apps/vscode/src/state.ts:457-488 | Over every run on a monotone clock: a transient failure is retried, up to three times, 400, 1,400 and 3,900 ms after the iteration began, but not before now; any other asks for the inventory, starts the iteration anew if it was superseded, or ends the flight that was cut short. Nothing of it is shown yet. |
| StoreTurns.WaitsEndInAnAttempt | apps/vscode/src/state.ts:428-434 | A wait ends when it is due or its flight is aborted, and not before, in an attempt that asks for what is loaded then and sends the receipt of what is shown unless a full answer is owed. |
| StoreTurns.RequestsJoinOrStart | apps/vscode/src/state.ts:301-322 | A refresh or slice request loads what it names and owes a full answer for what is new; it joins the flight under way, superseding what that reads if something changed, or starts one that asks for all that is loaded with the receipt of what is shown; a disposed store starts nothing. |
| StoreTurns.SupersedesWhen | apps/vscode/src/state.ts:581-597 | Which requests supersede a read under way, spelled out. |
| StoreTurns.MovesStartOver | apps/vscode/src/state.ts:255-283 | A move aborts and detaches the flight, owes a full answer, keeps what is loaded and every lease, and shows no error. |
| StorePayloads.WhatTheCacheBrings | apps/vscode/src/state.ts:104-124 | After a snapshot came out of the cache a dedicated payload is shown if and only if it was cached and is SGOS, or Comprehension on a move while a lease holds it. |
| StorePayloads.CachedSgosIsUnleased | apps/vscode/src/state.ts:237-244 | A concrete run in which SGOS comes out of the cache though nobody holds it and it is not loaded. |
| StorePayloads.PayloadsAreTraced | apps/vscode/src/state.ts:397-425 | Over every run a dedicated payload is shown if and only if what replaced the snapshot last, answer, recovery or cache, brought it and no last lease on it ended since. |
| StorePayloads.UnloadedPayloads | apps/vscode/src/state.ts:463-542 | Over every run in which answers bring only what was asked for: a dedicated slice that is not loaded is shown if and only if an answer brought it whose read, combined or independent, asked for it before its last lease ended and was answered after, or it is SGOS from the cache. |
| StorePayloads.ReleasedSliceComesBack | apps/vscode/src/state.ts:463-527 | A concrete run from the empty store in which a lease ends while a read runs and the answer shows the slice though nobody holds it. |
| StoreRuns.ReadsAreBounded | apps/vscode/src/state.ts:449-558 | A flight makes one iteration and at most one more for each superseding request since it started, with at most four attempts each. |
| StoreRuns.BurstCostsOneFollowUp | apps/vscode/src/state.ts:492-492 | However many requests arrive during one read, its answer is dropped and exactly one more read answers them all. |
| StoreRuns.LeaseConservation | apps/vscode/src/state.ts:333-425 | A slice's count is the number of leases that hold it or are being acquired; a counted or core slice is loaded; the disposers are exactly the live leases. |
| StoreTurns.LeasesEnd | apps/vscode/src/state.ts:333-388 | A held lease ends by its disposal, by its timer if it has one, or with the store, and by nothing else; renewing it gives it a timer. |
| StoreTurns.LeasesGiveBack | apps/vscode/src/state.ts:397-425 | A lease that is disposed of or expires gives each of its slices back once: the last holder of a slice outside the core unloads it and takes a dedicated payload along; every other slice and lease stays. |
| StoreTurns.AcquisitionsResolve | apps/vscode/src/state.ts:357-365 | An acquisition becomes a lease when the flight it waited for is over, or gives its slices back. |
| StoreTurns.AcquisitionsCount | apps/vscode/src/state.ts:333-362 | An acquisition has a new name, counts each slice once more at once, and waits for the flight under way, the one it starts, or nothing. |
| StoreRuns.AcquisitionsAwaitFlights | apps/vscode/src/state.ts:312-322 | Over every run an acquisition under way waits for nothing, or for a flight that exists. |
| StoreAcquisitions.CurrentAsksForAll | apps/vscode/src/state.ts:301-322 | Over every run the last attempt of the current flight asked for everything that is loaded now, also while it backs off or recovers. |
| StoreAcquisitions.AcquisitionsWaitForTheirSlices | apps/vscode/src/state.ts:310-316 | When the flight that an acquisition waits for, joined or started by it, has ended, neither aborted nor disposed of, its last attempt asked for the acquisition's slices if and only if the acquisition did not fall into the settle gap or they were all loaded when that attempt began; in the gap that attempt came before it. |
| StoreAcquisitions.AcquisitionInTheGapIsMissed | apps/vscode/src/state.ts:310-316 | A concrete run in which an acquisition in the settle gap waits for a read that never asked for its slice, and no other read follows. |
| StoreRuns.FinalReleaseLeavesNoTrace | apps/vscode/src/state.ts:397-425 | The last holder of a dedicated slice takes its payload, listing, digest and the aggregate revision along; any other takes nothing. |
| StoreRuns.SecondDisposalDoesNothing | apps/vscode/src/state.ts:367-375 | Disposing of a lease twice is disposing of it once. |
| StoreRuns.DisposalReleasesEverything | apps/vscode/src/state.ts:599-604 | A disposed store holds no live lease, and its counts are those of the acquisitions still pending. |
| StoreObjects.ReleasedInTurn | apps/vscode/src/state.ts:397-425 | Giving slices back one by one is giving them back together. |
| StoreObjects.WorkspaceStore.ReleaseSlice | apps/vscode/src/state.ts:397-425 | One slice is given back, and dropped with its payload when nobody holds it. |
| StoreObjects.WorkspaceStore.Refresh | apps/vscode/src/state.ts:581-597 | A request joins the current flight or starts one, and advances the generation exactly when it must. It is the store's step for that event, and the invariant holds again. |
| StoreObjects.WorkspaceStore.EnsureSlices | apps/vscode/src/state.ts:301-322 | The loop loads what is missing; the caller waits for the current flight, a new one, or nothing. It is the store's step for that event, and the invariant holds again. |
| StoreObjects.WorkspaceStore.AcquireSlices | apps/vscode/src/state.ts:333-362 | The slices are counted before they are read, and a lease with a new name is pending on that read; no slices are refused. It is the store's step for that event, and the invariant holds again. |
| StoreObjects.WorkspaceStore.ResolveAcquisition | apps/vscode/src/state.ts:357-388 | An acquisition becomes a live lease, or gives its slices back. It is the store's step for that event, and the invariant holds again. |
| StoreObjects.WorkspaceStore.DisposeLease | apps/vscode/src/state.ts:367-375 | Only the first disposal of a live lease gives its slices back. It is the store's step for that event, and the invariant holds again. |
| StoreObjects.WorkspaceStore.RenewLease | apps/vscode/src/state.ts:376-388 | Only a lease that is still held starts its timer again. It is the store's step for that event, and the invariant holds again. |
| StoreObjects.WorkspaceStore.ExpireLease | apps/vscode/src/state.ts:367-375 | A timer disposes of the lease it was started for. It is the store's step for that event, and the invariant holds again. |
| StoreObjects.WorkspaceStore.RepositoryChanged | apps/vscode/src/state.ts:255-283 | The flight is aborted and detached, the generation advances, a full answer is owed, and only the new repository's cache is shown. It is the store's step for that event, and the invariant holds again. |
| StoreObjects.WorkspaceStore.PrimeFromCache | apps/vscode/src/state.ts:233-244 | A cached snapshot is shown only if nothing is, without Comprehension, and marked stale. It is the store's step for that event, and the invariant holds again. |
| StoreObjects.WorkspaceStore.OnSnapshot | apps/vscode/src/state.ts:490-527 | The turn of the loop after an answer: discard, receipt, or full publication. An answer of the current generation is shown, itself or as a receipt over what was shown, without error, spinner or stale mark. It is the store's step for that event, and the invariant holds again. |
| StoreObjects.WorkspaceStore.OnReadFailure | apps/vscode/src/state.ts:474-499 | The turn after a failure: end, back off, discard, report superseded, or recover. It is the store's step for that event, and the invariant holds again. |
| StoreObjects.WorkspaceStore.OnWake | apps/vscode/src/state.ts:428-434 | The wait is over or was cut short: the next attempt asks for what is loaded then. It is the store's step for that event, and the invariant holds again. |
| StoreObjects.WorkspaceStore.OnConfiguration | apps/vscode/src/state.ts:531-556 | The turn after the configuration inventory. It is the store's step for that event, and the invariant holds again. |
| StoreObjects.WorkspaceStore.OnIndependent | apps/vscode/src/state.ts:536-542 | The turn after the independent slices: discard, or publish the recovery with its error. It is the store's step for that event, and the invariant holds again. |
| StoreObjects.WorkspaceStore.OnSettled | apps/vscode/src/state.ts:591-594 | A flight that ends makes way only for itself. It is the store's step for that event, and the invariant holds again. |
| StoreObjects.WorkspaceStore.Dispose | apps/vscode/src/state.ts:599-604 | The loop over the disposers releases every live lease. It is the store's step for that event, and the invariant holds again. |
| SingleFlights.OneRunAtATime | apps/vscode/src/single-flight.ts:59-68 | Over every run there is at most one loop in flight. |
| SingleFlights.ValuesAreFresh | apps/vscode/src/single-flight.ts:70-76 | A resolved value comes from an operation begun at or after the request if and only if the request did not fall into the settle gap; a rejection comes from an older one if and only if the request found a run and no operation of that run has resolved since. |
| SingleFlights.SettleGapIsReachable | apps/vscode/src/single-flight.ts:59-68 | A concrete run that reaches the settle gap: a second request gets the value read before it. |
| SingleFlights.BurstCostsOneOperation | apps/vscode/src/single-flight.ts:70-76 | Any number of requests during one operation cost exactly one more, whose value all get. |
| SingleFlights.ResolvedRunsAgainForNewerRequests | apps/vscode/src/single-flight.ts:70-76 | Over every run an operation's value stands if and only if nothing was requested since it began; otherwise the operation runs again at once for every request so far. |
| SingleFlights.RequestsStartOrJoin | apps/vscode/src/single-flight.ts:59-68 | A request waits for the run in flight, or starts one with an operation that knows of it. |
| SingleFlights.RejectionReachesNewerRequests | apps/vscode/src/single-flight.ts:70-76 | A rejection is not checked against newer requests: it reaches them from an operation begun before. |
| SingleFlights.LatestSingleFlight.Ask | apps/vscode/src/single-flight.ts:59-68 | A request joins the run in flight or starts one. |
| SingleFlights.LatestSingleFlight.OperationResolved | apps/vscode/src/single-flight.ts:70-76 | A value stands, or the operation runs again for the newest request. |
| Coalescers.EveryRunKeepsInv | apps/vscode/src/single-flight.ts:10-41 | A paint is pending exactly while a request is newer than the last paint, and then the last queued microtask, and no other, will perform it. |
| Coalescers.TurnPaintsOnce | apps/vscode/src/single-flight.ts:18-28 | When the queued microtasks have run, every request has been painted after it was made, at the cost of at most one paint. |
| Coalescers.PaintsWhen | apps/vscode/src/single-flight.ts:18-41 | What paints: a flush at once, or the microtask of the pending request, which each request has or gets; nothing paints after disposal. |
| Coalescers.MicrotaskCoalescer.RunMicrotask | apps/vscode/src/single-flight.ts:22-26 | A microtask paints only if its token is current and a paint is pending. |
| StoryGates.AfterCurrentReadsAnew | apps/vscode/src/story-discovery.ts:36-53 | Every call for a read after the current one, whether it found a read of its epoch or not, settles only with a read of that epoch asked for no earlier than the call and begun after it. |
| StoryGates.AskJoinsItsEpoch | apps/vscode/src/story-discovery.ts:39-52 | Any other caller joins the running read exactly if it is of its own epoch. |
| StoryGates.WaitersShareTheTrailingRead | apps/vscode/src/story-discovery.ts:41-45 | Waiting callers of one epoch share one trailing read as long as no other epoch takes the gate and that read still runs. |
| StoryGates.WaitersGoOn | apps/vscode/src/story-discovery.ts:39-46 | A caller that waited goes on once the read before has made way: with the read that runs for its epoch then, or a new one. |
| StoryGates.StoryRefreshGate.RunRead | apps/vscode/src/story-discovery.ts:39-52 | The read of the same epoch that runs, or a new one that replaces what was active. |
| StoryGates.StoryRefreshGate.ClearRead | apps/vscode/src/story-discovery.ts:48-50 | A read that settled makes way only for itself. |
| RenderGates.PanelStaysFresh | apps/vscode/src/single-flight.ts:87-132 | For every event: a panel with nothing pending shows the store's digest of each relevant slice, and a visible panel with something pending has an announcement due, provided notifications name every changed slice. |
| RenderGates.HiddenChangesCollapse | apps/vscode/src/single-flight.ts:104-122 | Whatever the host and the store do while a panel is hidden renders nothing, and costs one render when it is revealed if and only if a change that concerns it has not been rendered since. |
| PanelTurns.PanelsRenderWhen | apps/vscode/src/single-flight.ts:104-132 | A panel renders exactly when it is visible and told of a change that is not about loading and whose named slices meet its own, or announced as visible with such a change pending; while hidden it remembers such a change until it is rendered; a disposed one does nothing. |
| PanelTurns.TurnsAreTold | apps/vscode/src/state.ts:490-556 | What the store tells of each turn of the loop: a full answer names the slices it changed, a receipt none, a recovery is told as an error with what it changed, everything else as loading. |
| PanelTurns.OthersAreTold | apps/vscode/src/state.ts:233-283 | Of the other events: a lease that ends names the payloads that are gone, the cache is told as such, and a move without a cached snapshot as a change of every slice. |
| RenderGates.StoreChangesAreFaithful | apps/vscode/src/state.ts:292-298 | Every notification of the store names every slice whose digest moved, except exactly for a published answer that cannot be told from what is shown: a receipt that does not repeat its digests, or a full answer with digests over a snapshot without any and with the same aggregate revision. |
| RenderGates.HonestReceiptsAreFaithful | apps/vscode/src/state.ts:502-513 | Over every run a receipt that certifies the digests shown when its attempt began is announced truly, as changing nothing, if and only if no payload with a digest was taken out of what is shown since, or it carries no revision. |
| RenderGates.ReturningDigestIsUnannounced | apps/vscode/src/state.ts:502-513 | A concrete run, acquire, answer, refresh, release, receipt, in which a digest returns and the notification says that nothing changed. |
| StoreReceipts.ShownSinceTheAttempt | apps/vscode/src/state.ts:397-425 | Over every run: what a current read's answer meets is what was shown when the read began, but for the payloads taken out since, and their digests. |
| StoreReceipts.ShownIsUntouched | apps/vscode/src/state.ts:397-425 | It is the very same snapshot if and only if no payload was taken out since. |
| RenderGates.FullChangesAreFaithful | apps/vscode/src/state.ts:141-166 | The notification of a full answer names every slice whose digest moved if and only if nothing was shown, what was shown has digests, the answer has none, or the aggregate revisions differ or are unknown. |
| RenderGates.PanelShowsTheStore | apps/vscode/src/single-flight.ts:87-132 | Over every interleaving of store events and visibility events, until the store is disposed, a panel with nothing pending shows the store's current digest of each slice it renders, provided published receipts certify what was shown when their attempt began, no payload with a digest is taken out while a read runs that a receipt ends, and published full answers can be told from what is shown. |
| RenderGates.RetainedPanelRenderGate.OnChanged | apps/vscode/src/single-flight.ts:104-115 | A change is ignored, remembered while hidden, or rendered. |
| RenderGates.RetainedPanelRenderGate.VisibilityChanged | apps/vscode/src/single-flight.ts:117-121 | A remembered change is rendered once, when the panel is visible. |
| WatcherFences.EventsAreConserved | apps/vscode/src/watcher-refresh-fence.ts:67-107 | Over every run each observed event is, unchanged, in exactly one place: pending, one batch, suppressed, handed to the ordinary refresh, or discarded by a reset; pending is strictly increasing. |
| WatcherFences.PutBackHolds | apps/vscode/src/watcher-refresh-fence.ts:100-107 | A batch put back among newer events leaves the pending ones sorted, complete and without duplicates. |
| WatcherTurns.RestoredEventsWait | apps/vscode/src/watcher-refresh-fence.ts:100-107 | After a batch is put back exactly its events and those pending before are pending, and the batch is gone. |
| WatcherFences.SuppressionNeedsProof | apps/vscode/src/watcher-refresh-fence.ts:110-136 | A batch counts as incorporated if and only if it is not empty, none of it is private to automation, both subjects are known and differ, and for every event the first candidate slice known on both sides has a new digest. |
| WatcherFences.DelayedEchoNeedsProof | apps/vscode/src/watcher-refresh-fence.ts:156-197 | A later batch counts as the refresh's own echo if and only if it is not empty, none of it is private to automation, every event's first known slice is one the refresh changed, and the probe finds branch, head and worktree as the refresh left them; an echo is expected only if the repository moved. |
| WatcherTurns.ExpectationMoves | apps/vscode/src/watcher-refresh-fence.ts:145-197 | An echo comes to be expected exactly by an explicit refresh that moved the repository, changed a slice and left a worktree hash, as that refresh left things; any other refresh, a clearing, a reset and a probe of nothing but echoes that finds something else end it, and nothing else does. |
| WatcherTurns.EchoesAreDropped | apps/vscode/src/watcher-refresh-fence.ts:174-197 | A batch of nothing but echoes of the refresh is dropped when the probe finds things as the refresh left them, and the expectation stays. |
| WatcherTurns.RefreshesEndTheirBatch | apps/vscode/src/watcher-refresh-fence.ts:145-164 | The end of an explicit refresh ends its batch: its events are dropped if it is proved incorporated, and wait again if not. |
| WatcherFences.OnlyProofSuppresses | apps/vscode/src/watcher-refresh-fence.ts:145-197 | An event is dropped if and only if the step proves its batch incorporated, by an explicit refresh or by an exact delayed echo. |
| WatcherFences.LaterEventsStayPending | apps/vscode/src/watcher-refresh-fence.ts:93-97 | A batch holds only events observed before it was taken, so nothing observed during a refresh can be suppressed by it. |
| WatcherFences.RestoreRespectsReset | apps/vscode/src/watcher-refresh-fence.ts:88-107 | In every run that has kept the boundary so far, putting a batch back keeps it if and only if the batch is empty or was captured after the latest reset. |
| WatcherFences.ResetIsABoundary | apps/vscode/src/watcher-refresh-fence.ts:88-88 | Over every run nothing observed before the latest reset is ever pending again if and only if no event of a batch captured before a reset is put back after it. |
| WatcherFences.ExpectationIsRecent | apps/vscode/src/watcher-refresh-fence.ts:88-90 | Over every run an echo is expected only on account of the latest explicit refresh, and only if that ended after the latest reset and after the expectation was last cleared. |
| WatcherFences.StaleBatchCrossesReset | apps/vscode/src/watcher-refresh-fence.ts:88-107 | A concrete run in which a batch taken before a reset is put back after it and brings the old repository's event back. |
| WatcherFences.RevisionSliceWatcherFence.RestoreBatch | apps/vscode/src/watcher-refresh-fence.ts:100-107 | The filter and the sort leave what putting back specifies. |
| WatcherFences.RevisionSliceWatcherFence.MatchesRefresh | apps/vscode/src/watcher-refresh-fence.ts:110-136 | The loops over events and candidates find that a batch was incorporated if and only if every event's first slice known on both sides has a new digest, besides the conditions on the batch and the two snapshots. |
| WatcherFences.RevisionSliceWatcherFence.EchoesChanges | apps/vscode/src/watcher-refresh-fence.ts:179-188 | The loops over events and candidates find an echo of the changed slices if and only if every event's first known slice is one that changed. |
| WatcherFences.RevisionSliceWatcherFence.FinishReconcile | apps/vscode/src/watcher-refresh-fence.ts:145-164 | The nested loops of the proof decide exactly as the rule for incorporated batches says; the batch is suppressed or put back and the delayed echo set or cleared, as the fence's step for it. |
| WatcherFences.RevisionSliceWatcherFence.FinishProbe | apps/vscode/src/watcher-refresh-fence.ts:174-197 | The nested loops and the comparison of the probe decide exactly as the rule for delayed echoes says; a different answer clears the expectation, as the fence's step for it. |
| IntakePreparations.EveryCheckoutHasOneOwner | apps/vscode/src/intake-worktree-preparation.ts:13-53 | Over every interleaving of schedule, cancel and take with the promise chain: at most one checkout is held, it came from the link that ended last, nothing is held while a link works, and homes, discards and takers agree. |
| IntakePreparations.TakenOnceOrGivenUpOnce | apps/vscode/src/intake-worktree-preparation.ts:13-53 | A checkout is taken by one caller, for the key it was scheduled with, and then never discarded; or given up, and then discarded exactly once if it was owned. |
| IntakePreparations.HomesAreFinal | apps/vscode/src/intake-worktree-preparation.ts:37-53 | A checkout that was taken or given up stays so. |
| IntakePreparations.CancelDrains | apps/vscode/src/intake-worktree-preparation.ts:32-35 | Once the chain has passed the link a cancel added, nothing scheduled before the cancel is held. |
| IntakePreparations.NothingOlderIsHeldAgain | apps/vscode/src/intake-worktree-preparation.ts:13-44 | Once nothing is held, nothing scheduled before is ever held again. |
| IntakePreparations.TakeRetiresEarlierSchedules | apps/vscode/src/intake-worktree-preparation.ts:40-43 | A take that succeeds leaves nothing held and outdates everything scheduled so far. |
| IntakeTakes.TakeGetsThePreparedCheckout | apps/vscode/src/intake-worktree-preparation.ts:37-44 | Over every run: a take of a key that goes on after the checkout scheduled for it was prepared, with nothing scheduled or cancelled and no other take gone on since that schedule, gets exactly that checkout, owns it for good, and no discard of it ever begins. |
| IntakeTakes.TakesTheHeldCheckout | apps/vscode/src/intake-worktree-preparation.ts:37-44 | A take that goes on gets the held checkout if and only if it was scheduled for its key, and then no discard begins; otherwise it gets nothing, what is held stays held, and a cleaning link is added. |
| IntakeTakes.HeldIsLeftAlone | apps/vscode/src/intake-worktree-preparation.ts:13-53 | What is held stays held exactly until the next link begins or a take of its key goes on. |
| IntakeTakes.LinksAreAdded | apps/vscode/src/intake-worktree-preparation.ts:13-39 | A schedule adds a preparing link for its key, a cancel and a take that gets nothing a cleaning one, and nothing else adds one. |
| IntakeTakes.TheChainMoves | apps/vscode/src/intake-worktree-preparation.ts:13-53 | The link at work moves on: cleanup, then the preparation if it is still current, then a second cleanup if it is not; the next link begins when it is done. |
| IntakeTakes.GivenUpWhen | apps/vscode/src/intake-worktree-preparation.ts:18-53 | The discard of a checkout begins exactly when a link begins while it is held, or when its preparation ends out of date, and only if it is owned. |
| IntakePreparations.OnlyTheNewestPrepares | apps/vscode/src/intake-worktree-preparation.ts:18-19 | Over every run: after the cleanup of its link Git is asked for a scheduled checkout if and only if nothing was scheduled or cancelled and no take went on between the schedule and the end of that cleanup; otherwise the link just ends. |
| IntakePreparations.OnlyTheNewestIsHeld | apps/vscode/src/intake-worktree-preparation.ts:20-28 | Over every run: a checkout that is ready is held if and only if nothing was scheduled or cancelled and no take went on since its schedule; otherwise it is given up in the same turn, and discarded if it is owned. |
| IntakePreparations.IdleHoldsTheLatest | apps/vscode/src/intake-worktree-preparation.ts:13-30 | When the chain is idle, what is held is what was asked for last. |
| IntakePreparations.IntakeWorktreePreparation.PreparationEnded | apps/vscode/src/intake-worktree-preparation.ts:20-29 | A prepared checkout is held, and given up at once if it is out of date. |
| IntakePreparations.IntakeWorktreePreparation.ResumeTake | apps/vscode/src/intake-worktree-preparation.ts:37-44 | A take gets the held checkout of its key and becomes its home, without a discard; otherwise it gets nothing, leaves what is held, and adds a cleaning link. |
| IntakePreparations.IntakeWorktreePreparation.BeginCleanup | apps/vscode/src/intake-worktree-preparation.ts:46-53 | What is held is given up, and its discard begins exactly if it is owned. |
| StatusWorkers.PendingGoesToTheCurrentWorker | apps/vscode/src/gateway-status-worker-client.ts:33-113 | Over every run everything pending was sent to the current worker, and everything else is settled exactly once. |
| StatusWorkers.ReadsWaitForTheirWorker | apps/vscode/src/gateway-status-worker-client.ts:33-58 | A read goes, under a number of its own, to the worker that runs or to a new one, and waits there; one that cannot be sent is answered with null, and a disposed client forks nothing. |
| StatusWorkers.SettledBy | apps/vscode/src/gateway-status-worker-client.ts:38-113 | A pending request is settled by its answer with that value, and with null exactly by a timeout, the failure of the worker that runs, or the disposal. |
| StatusWorkers.AnswersBelongToTheirRequest | apps/vscode/src/gateway-status-worker-client.ts:81-88 | Over every run of the client and its workers, current or replaced: a request is settled at most once, and with a value only by the message in which the worker it was sent to answers its own number. |
| StatusWorkers.ReplacedWorkersAreIgnored | apps/vscode/src/gateway-status-worker-client.ts:81-105 | Over every run: nothing a replaced worker says or does changes anything. |
| StatusWorkers.AnswersAreMatchedByNumber | apps/vscode/src/gateway-status-worker-client.ts:81-88 | The client itself takes a message, whoever sent it, if and only if its number is pending. |
| StatusWorkers.ForeignAnswerIsTaken | apps/vscode/src/gateway-status-worker-client.ts:81-88 | A message of a replaced worker under a number it was not sent would settle another worker's request: that workers answer under the number they received is needed. |
| StatusWorkers.AnswersToEverythingPendingCanCome | apps/vscode/src/gateway-status-worker.ts:66-74 | Over every run each number a worker holds or has answered was sent to that worker, and everything pending is still with its worker or on its way back. |
| StatusWorkers.AnswersWereGiven | apps/vscode/src/gateway-status-worker.ts:66-74 | Over every run each answer on its way was given by its worker, which had received that number. |
| StatusWorkers.HungReadReplacesItsWorker | apps/vscode/src/gateway-status-worker-client.ts:38-47 | A timed-out read drops its worker and answers null to everything pending on it. |
| StatusWorkers.DisposedStaysQuiet | apps/vscode/src/gateway-status-worker-client.ts:60-66 | A disposed client has no worker and nobody waiting, ever after. |
| StatusWorkers.GatewayStatusWorker.FinishPending | apps/vscode/src/gateway-status-worker-client.ts:107-113 | The loop answers every pending request with null, once. |
| StatusWorkers.GatewayStatusWorker.OnTimeout | apps/vscode/src/gateway-status-worker-client.ts:38-47 | The read is answered with null; its worker is dropped only if it is still current. |
| Shell.CommandArgv | apps/vscode/src/commands.ts:35-76 | The index loop computes the tokenizer's specification, including the unterminated-quote error. |
| Shell.CommandsAreRead | apps/vscode/src/commands.ts:35-76 | However the words of a command are written, bare with escapes, in single or in double quotes, in any mixture, and separated, with or without white space around, the tokenizer reads exactly what they mean if and only if the last one does not end in escaped white space. |
| Shell.DoubleQuotedIsReadBack | apps/vscode/src/commands.ts:49-65 | A text in double quotes, its own double quotes escaped, is read back if and only if it does not end in a backslash; then the quote is unterminated. |
| Shell.PrintedArgumentsAreReadBack | apps/vscode/src/sgos-workflow-create-model.ts:153-165 | The tokenizer reads back exactly the printed arguments if and only if there are any; for none it returns the program's name. |
| Shell.DifferentArgumentsPrintDifferently | apps/vscode/src/sgos-workflow-create-model.ts:163-165 | The printer is injective. |
| Shell.PrintedCommandMeansTheSameInAShell | apps/vscode/src/sgos-workflow-create-model.ts:153-165 | A shell takes the printed command for a simple one and splits it into the program's name and exactly the arguments: by the token recognition and quoting of the POSIX.1-2017 Shell Command Language (sections 2.2 to 2.4), in which no character that section 2.2 lists may stand unquoted, except an equals sign behind the first word. |
| Shell.EqualsNeedsTheName | apps/vscode/src/sgos-workflow-create-model.ts:153-156 | An unquoted word at the head of a command stands for itself exactly if it holds no equals sign and is not reserved: the printer relies on the program's name in front. |
| Progress.StreamingIsBatch | apps/vscode/src/cli/progress.ts:48-79 | For every way of cutting the stream into chunks, the text handed on and the steps reported are those of filtering the whole stream line by line. |
| Progress.CuttingDoesNotMatter | apps/vscode/src/cli/progress.ts:48-69 | Two ways of cutting the same stream end alike. |
| Progress.WhatIsWrittenIsStreamed | apps/vscode/src/cli/progress.ts:10-79 | Whatever the engine writes, progress lines of its vocabulary and others, and however the stream is cut, exactly the steps are reported, in order, and every other line is handed on. |
| Progress.StepsAreTold | apps/vscode/src/cli/progress.ts:10-10 | A line is a progress line of a step if and only if it is the prefix and that step, with or without a carriage return, and the step is in the vocabulary. |
| Progress.OtherLinesSurvive | apps/vscode/src/cli/progress.ts:71-79 | What is kept is the lines that are not progress, unchanged and in order, and there is one step for each other line. |
| Progress.FilteringTwiceIsFilteringOnce | apps/vscode/src/cli/progress.ts:71-79 | Nothing that is kept would be taken for progress again. |
| Progress.ProgressLineSplitter.Push | apps/vscode/src/cli/progress.ts:48-57 | Complete lines are filtered and returned; the rest waits. |
| Progress.ProgressLineSplitter.End | apps/vscode/src/cli/progress.ts:59-69 | The unfinished line is reported or returned. |
| Progress.ProgressLineSplitter.FilterLines | apps/vscode/src/cli/progress.ts:71-79 | The loop over lines computes the filter. |
| ChatReferences.NeighboursDecide | apps/vscode/src/chat-file-references.ts:307-315 | After sorting, looking at neighbours finds an overlap if and only if any two of the given ranges overlap. |
| ChatReferences.EditsNeverShift | apps/vscode/src/chat-file-references.ts:316-318 | After each edit everything before the last range is the prompt's own text, so the next offsets are still valid. |
| ChatReferences.CuttingIsExact | apps/vscode/src/chat-file-references.ts:307-318 | For disjoint ranges the in-place edits leave exactly the prompt outside the ranges, in order, with one space for each range. |
| ChatReferences.AuthoredFeedbackIsKept | apps/vscode/src/chat-file-references.ts:258-328 | For a prompt in which at most five different local files are mentioned, their ranges given in any order, the feedback is what was typed around the mentions with one space for each, trimmed, provided it is not empty and takes at most 8,192 bytes, and the paths are those of the references in their order. |
| ChatReferences.RefusalsAre | apps/vscode/src/chat-file-references.ts:258-318 | Which refusal is given, spelled out: the number of references, a file that is not local, a repeated one, an invalid range, and two ranges that share a character, in this order. |
| ChatReferences.DescendingSorts | apps/vscode/src/chat-file-references.ts:307-307 | The sorted ranges are the given ones, last start first. |
| ChatReferences.CollectCuts | apps/vscode/src/chat-file-references.ts:288-306 | The loop refuses exactly if some range is invalid, and otherwise collects all of them. |
| ChatReferences.CutAll | apps/vscode/src/chat-file-references.ts:316-318 | The loop performs the edits in order. |
| ChatReferences.ChatFilePreviewInput | apps/vscode/src/chat-file-references.ts:258-328 | The refusals in the order of the checks, and otherwise the paths with the feedback outside the ranges. |

## Left out

- Listeners that call back into the store while it publishes: the source notifies synchronously, before `inFlight` is assigned; here listeners do not re-enter.
- Process spawning, Git, worker messages, file reads and writes, panels and dialogs: their outcomes are inputs of the events.
- `commandClass`, `timeoutFor`, `cacheableRead` and the gateway routing table: a request is a read or a mutation, cacheable or not, as given.
- Repository path canonicalisation, environment digests, SHA-256 and structured cloning: checkouts, requests and digests are numbers, so equal exactly when the originals are.
- The priority of a shared job: the hub's jobs do not carry one, so in ReadSlots.dfy a ticket is queued and raised with any priority.
- Warm readers, prewarming, timing events and output streaming of the client: they do not decide which answer is used.
- Subscriber timers and abort signals: both are the event in which a subscriber leaves, at any time.
- `nextRefreshPriority`, `revisionChanged` and the wording of errors in the store: they do not decide what is read or shown.
- The validation of lease owners, slice names and lifetimes, and the text of lease identifiers: a lease is acquired for a non-empty set of known slices.
- Writes to the snapshot cache: what a later read of the cache returns is an input.
- RetryBudgets.BackoffStaysWithin: bounds what the waits ask for; how late the operating system wakes the process is not bounded.
- `schedule` without a work id, which is a cancel in the source, is a cancel here; the validity of the prepared commit hash is part of the result that is given.
- `governedPathCandidateSlices`: the candidate slices of an event are an input.
- ChatReferences.ChatFilePreviewInput: whether a value names a verifiable local file, its normalised form and the byte length of the feedback are inputs.
- Shell aliases: the words of a printed command are taken before alias substitution.
- Text is a sequence of Unicode scalar values, where the source has UTF-16 units: unpaired surrogates are not representable, and prompt offsets count scalar values.
- `ChatAttachmentConfirmations`, plan and command confirmation tokens, placeholder prompts, evidence and decision argument builders: short checks without a history.
- `BackgroundWorkGovernor`, `RepositoryEpochGuard`, `IntakePreflightScheduler` and the discovery loops of the story catalogue: their invariants follow from reading one body.
- The engine under `src/`, the Java helpers and the gateway kernel are not part of this model.
