// When a read waits and for what: writes in flight keep it out of the pool, everything else lets it in, and
// leaving one ends nobody else's.
module ReadWaits {
  import opened ReadHubs
  import opened Wrappers

  // ---- Writes in flight ----

  // Event `op` began a write of `repository`, the checkout its client was bound to.
  ghost predicate Began(events: seq<Event>, op: nat, repository: nat)
    requires op < |events|
  {
    events[op].Begin? && Bound(Run(events[..op]).clients, events[op].client, repository)
  }

  ghost predicate Unsettled(events: seq<Event>, op: nat) {
    forall m | op < m < |events| :: events[m] != Settle(op)
  }

  // A write of the checkout has begun and has not settled.
  ghost predicate WriteInFlight(events: seq<Event>, repository: nat) {
    exists op: nat :: op < |events| && Began(events, op, repository) && Unsettled(events, op)
  }

  lemma WritesMove(h: Hub, e: Event)
    requires Inv(h, h.step) && (e.Begin? || e.Settle?)
    ensures Step(h, e).operations ==
            if e.Settle? then h.operations - {e.operation}
            else if e.client in h.clients
            then h.operations[h.step := Operation(e.client, h.clients[e.client].repository)] else h.operations
  {
    hide UseRepository, CancelOwn, RequestRead, FinishJob, Leave, EnqueueJob, StartJob, JobsOk, SharedOk,
         SubscribersOk, OwnersOk, EpochsOk, ResultsOk;
  }

  lemma FencesMoveNoWrite(h: Hub, e: Event)
    requires e.Invalidate? || e.Rebind? || e.Dispose?
    ensures Step(h, e).operations == h.operations
  {
    hide BeginMutation, SettleMutation, RequestRead, FinishJob, EnqueueJob, StartJob, PendingOf, DepartAll, SettleAll,
         StillShared, StillRead;
  }

  lemma ReadsMoveNoWrite(h: Hub, e: Event)
    requires e.NewClient? || e.Request? || e.LeaveRead? || e.MutationsCleared? || e.Slot? || e.Complete? || e.Idle?
    ensures Step(h, e).operations == h.operations
  {
    hide BeginMutation, SettleMutation, InvalidateReads, UseRepository, CancelOwn, PendingOf, DepartAll, SettleAll,
         StillShared, StillRead, DeliverAll, Unshare, Answer, KeyOf, WithoutStale, JobFor, Share, Watching, Mutating,
         Enqueued, Started;
  }

  lemma OperationsMove(h: Hub, e: Event)
    requires Inv(h, h.step)
    ensures Step(h, e).operations ==
            if e.Begin? && e.client in h.clients
            then h.operations[h.step := Operation(e.client, h.clients[e.client].repository)]
            else if e.Settle? then h.operations - {e.operation} else h.operations
  {
    hide Step, Inv;
    if e.Begin? || e.Settle? { WritesMove(h, e); }
    else if e.Invalidate? || e.Rebind? || e.Dispose? { FencesMoveNoWrite(h, e); }
    else { ReadsMoveNoWrite(h, e); }
  }

  // The operations the hub keeps are exactly the writes in flight, each with the checkout it writes.
  lemma {:induction false} OperationsAreWrites(events: seq<Event>, op: nat, repository: nat)
    ensures op in Run(events).operations && Run(events).operations[op].repository == repository <==>
            op < |events| && Began(events, op, repository) && Unsettled(events, op)
  {
    hide Step, Inv;
    if events != [] {
      var front, last := events[..|events| - 1], events[|events| - 1];
      SharedReadInvariant(front);
      OperationsMove(Run(front), last);
      OperationsAreWrites(front, op, repository);
      OperationIsOld(Run(front), op);
      assert events[..|front|] == front && events[|front|] == last;
      if op < |front| { assert front[..op] == events[..op] && front[op] == events[op]; }
      assert forall m | 0 <= m < |front| :: events[m] == front[m];
    }
  }

  lemma OperationIsOld(h: Hub, op: nat)
    requires Inv(h, h.step)
    ensures op in h.operations ==> op < h.step
  {}

  lemma MutatingIsWriting(events: seq<Event>, repository: nat)
    ensures Mutating(Run(events).operations, repository) <==> WriteInFlight(events, repository)
  {
    hide Run, Began, Unsettled;
    forall op: nat
      ensures op in Run(events).operations && Run(events).operations[op].repository == repository <==>
              op < |events| && Began(events, op, repository) && Unsettled(events, op)
    {
      OperationsAreWrites(events, op, repository);
    }
  }

  // What fences a checkout: a write of it that begins or settles, and the client bound to it that forgets its
  // reads, is disposed of or moves to another.
  lemma FencesAre(h: Hub, e: Event, repository: nat)
    requires Inv(h, h.step)
    ensures Fences(h, e, repository) <==>
            || ((e.Begin? || e.Invalidate? || e.Dispose?) && Bound(h.clients, e.client, repository))
            || (e.Rebind? && Bound(h.clients, e.client, repository) && e.repository != repository)
            || (e.Settle? && e.operation in h.operations && h.operations[e.operation].repository == repository)
  {}

  // A new client starts with the checkout it is given and nothing else; a name in use is left alone.
  lemma NewClientsAreBound(h: Hub, c: nat, repository: nat)
    ensures var g := Step(h, NewClient(c, repository));
      if c in h.clients then g == h.(step := h.step + 1)
      else g == h.(clients := h.clients[c := Client(repository, 0, [], {})], step := h.step + 1)
  {}

  // ---- A job that was just created ----

  lemma NewJob(h: Hub, e: Event)
    requires Ready(h) && e.Request? && h.step in Step(h, e).jobs
    ensures e.client in h.clients && !e.aborted
    ensures var repository := h.clients[e.client].repository;
      Step(h, e).jobs[h.step] == Job(KeyOf(h, e.client, e.request, e.cacheable), repository, {h.step},
                                     !Mutating(h.operations, repository), false, false, false)
  {
    hide Mutating, Lookup, WithoutStale;
  }

  // A request that finds nothing to share makes a job of its own. The job takes a place in the pool at once if
  // and only if no write of its checkout is in flight.
  lemma NewReadsAreQueued(events: seq<Event>, k: nat)
    requires k < |events| && k in Run(events[..k + 1]).jobs && k !in Run(events[..k]).jobs
    ensures events[k].Request? && events[k].client in Run(events[..k]).clients
    ensures var job, repository := Run(events[..k + 1]).jobs[k], Run(events[..k]).clients[events[k].client].repository;
      && job.repository == repository && job.subscribers == {k} && Live(job) && !job.started
      && Run(events[..k + 1]).subscribers.Keys == Run(events[..k]).subscribers.Keys + {k}
      && Run(events[..k + 1]).subscribers[k].owner == events[k].client
      && (job.queued <==> !WriteInFlight(events[..k], repository))
  {
    hide Step, Effect, Inv, WriteInFlight, Mutating;
    RunTurns(events, k);
    SharedReadInvariant(events[..k]);
    var h := Run(events[..k]);
    InvIsReady(h);
    OnlyRequestsCreate(h, events[k], k);
    NewJob(h, events[k]);
    NewSubscriber(h, events[k]);
    MutatingIsWriting(events[..k], h.clients[events[k].client].repository);
  }

  lemma RequestWaits(h: Hub, c: nat, request: nat, cacheable: bool, aborted: bool, now: int)
    requires Ready(h) && c in h.clients
    ensures var answer := Answer(h, c, request, cacheable, aborted, now);
            var g := Step(h, ReadHubs.Request(c, request, cacheable, aborted, now));
      answer.Fresh? ==>
        && answer.job == h.step && answer.job in g.jobs && g.jobs[answer.job].subscribers == {h.step}
        && (g.jobs[answer.job].queued <==> !Mutating(h.operations, h.clients[c].repository))
  {
    hide Mutating, Answer, Step;
    AnswerShape(h, c, request, cacheable, aborted, now);
    if Answer(h, c, request, cacheable, aborted, now).Fresh? {
      FreshIsMade(h, c, request, cacheable, aborted, now);
      NewJob(h, ReadHubs.Request(c, request, cacheable, aborted, now));
    }
  }

  lemma FreshIsMade(h: Hub, c: nat, request: nat, cacheable: bool, aborted: bool, now: int)
    requires c in h.clients && Answer(h, c, request, cacheable, aborted, now) == Fresh(h.step)
    ensures h.step in Step(h, ReadHubs.Request(c, request, cacheable, aborted, now)).jobs
  {
    hide Mutating, Answer, KeyOf, DropStale, JobFor;
  }

  lemma RunTurns(events: seq<Event>, k: nat)
    requires k < |events|
    ensures Run(events[..k + 1]) == Step(Run(events[..k]), events[k])
  {
    assert events[..k + 1][..k] == events[..k];
  }

  lemma OnlyRequestsCreate(h: Hub, e: Event, j: nat)
    requires Ready(h) && j in Step(h, e).jobs && j !in h.jobs
    ensures e.Request? && j == h.step
  {
    hide Effect;
    if Fencing(e) { FenceCreatesNothing(h, e); }
    else if e.Request? { RequestCreates(h, e, j); }
    else { OthersCreateNothing(h, e); }
  }

  lemma NewSubscriber(h: Hub, e: Event)
    requires Ready(h) && e.Request? && h.step in Step(h, e).jobs
    ensures var g := Step(h, e);
      && g.subscribers.Keys == h.subscribers.Keys + {h.step} && g.subscribers[h.step].owner == e.client
      && g.subscribers[h.step].job == h.step && g.subscribers[h.step].settled == 0
  {
    hide Mutating, Lookup, WithoutStale;
  }

  // ---- Waiting outside the pool ----

  // Event `k` left job `j` outside the pool: its request, or the slot that found a write in flight.
  ghost predicate Deferred(events: seq<Event>, k: nat, j: nat)
    requires k < |events|
  {
    && j in Run(events[..k + 1]).jobs
    && WriteInFlight(events[..k], Run(events[..k + 1]).jobs[j].repository)
    && ((events[k].Request? && k == j)
        || (events[k] == Slot(j) && j in Run(events[..k]).jobs && Run(events[..k]).jobs[j].queued))
  }

  // And the writes it then waited for have not all ended.
  ghost predicate StillWaits(events: seq<Event>, j: nat) {
    exists k :: 0 <= k < |events| && Deferred(events, k, j)
                && forall m | k < m < |events| :: events[m] != MutationsCleared(j)
  }

  lemma DeferredEarlier(events: seq<Event>, k: nat, j: nat)
    requires events != [] && k < |events| - 1
    ensures Deferred(events, k, j) <==> Deferred(events[..|events| - 1], k, j)
  {
    hide WriteInFlight;
    var front := events[..|events| - 1];
    assert front[..k] == events[..k] && front[..k + 1] == events[..k + 1] && front[k] == events[k];
  }

  lemma WaitsOn(events: seq<Event>, j: nat)
    requires events != []
    ensures var front, last := events[..|events| - 1], events[|events| - 1];
      StillWaits(events, j) <==>
        Deferred(events, |front|, j) || (StillWaits(front, j) && last != MutationsCleared(j))
  {
    hide Deferred;
    var front, last := events[..|events| - 1], events[|events| - 1];
    assert forall m | 0 <= m < |front| :: front[m] == events[m];
    forall k: nat | k < |front| ensures Deferred(events, k, j) <==> Deferred(front, k, j) {
      DeferredEarlier(events, k, j);
    }
    if StillWaits(events, j) {
      var k :| 0 <= k < |events| && Deferred(events, k, j)
               && forall m | k < m < |events| :: events[m] != MutationsCleared(j);
      if k < |front| { assert Deferred(front, k, j) && events[|front|] == last; }
    }
    if StillWaits(front, j) && last != MutationsCleared(j) {
      var k :| 0 <= k < |front| && Deferred(front, k, j)
               && forall m | k < m < |front| :: front[m] != MutationsCleared(j);
      assert Deferred(events, k, j);
    }
  }

  // What a step does to the place of a job that has not started and is still waited for.
  ghost predicate Turns(h: Hub, e: Event, j: nat, before: Job, after: Job) {
    && after.repository == before.repository
    && (Live(after) && !after.started ==>
          && Live(before) && !before.started
          && (after.queued <==> e == MutationsCleared(j) || (before.queued && e != Slot(j)))
          && (e == Slot(j) && before.queued ==> Mutating(h.operations, before.repository)))
  }

  lemma DepartTurns(h: Hub, e: Event, j: nat, leaving: set<nat>)
    requires j in h.jobs && e != MutationsCleared(j) && e != Slot(j)
    ensures j in DepartAll(h.jobs, leaving) && Turns(h, e, j, h.jobs[j], DepartAll(h.jobs, leaving)[j])
    ensures Turns(h, e, j, h.jobs[j], h.jobs[j])
  {}

  lemma FenceTurns(h: Hub, e: Event, j: nat)
    requires Fencing(e) && j in h.jobs
    ensures j in Step(h, e).jobs && Turns(h, e, j, h.jobs[j], Step(h, e).jobs[j])
  {
    hide Effect, Turns, DepartAll, SettleAll, PendingOf, FenceOf;
    FencingEffect(h, e);
    DepartTurns(h, e, j, Leavers(h, e));
  }

  lemma RequestTurns(h: Hub, e: Event, j: nat)
    requires Ready(h) && e.Request? && j in h.jobs
    ensures j in Step(h, e).jobs && Turns(h, e, j, h.jobs[j], Step(h, e).jobs[j])
  {
    hide Mutating, Lookup, WithoutStale;
  }

  lemma CompleteTurns(h: Hub, e: Event, j: nat)
    requires e.Complete? && j in h.jobs
    ensures j in Step(h, e).jobs && Turns(h, e, j, h.jobs[j], Step(h, e).jobs[j])
  {
    hide FinishJob, Mutating;
    FinishJobs(h, e.job, e.value, e.now);
  }

  lemma LeaveTurns(h: Hub, e: Event, j: nat)
    requires e.LeaveRead? && j in h.jobs
    ensures j in Step(h, e).jobs && Turns(h, e, j, h.jobs[j], Step(h, e).jobs[j])
  {
    hide Leave, Turns, DepartAll;
    DepartTurns(h, e, j, {e.subscriber});
    if e.subscriber in h.subscribers && h.subscribers[e.subscriber].owner in h.clients {
      LeaveJobs(h, h.subscribers[e.subscriber].owner, {e.subscriber});
    }
  }

  lemma FlagsTurn(h: Hub, j: nat)
    requires j in h.jobs && JobOk(h.jobs[j])
    ensures Turns(h, MutationsCleared(j), j, h.jobs[j], Enqueued(h.jobs[j]))
    ensures Turns(h, Slot(j), j, h.jobs[j], Started(h.jobs[j], Mutating(h.operations, h.jobs[j].repository)))
    ensures forall e :: e != MutationsCleared(j) && e != Slot(j) ==> Turns(h, e, j, h.jobs[j], h.jobs[j])
  {
    hide Mutating;
  }

  lemma PoolJobs(h: Hub, e: Event)
    requires e.NewClient? || e.MutationsCleared? || e.Slot? || e.Idle?
    ensures Step(h, e).jobs ==
            match e
            case MutationsCleared(j) => (if j in h.jobs then h.jobs[j := Enqueued(h.jobs[j])] else h.jobs)
            case Slot(j) =>
              if j in h.jobs
              then h.jobs[j := Started(h.jobs[j], Mutating(h.operations, h.jobs[j].repository))] else h.jobs
            case _ => h.jobs
  {
    hide BeginMutation, SettleMutation, UseRepository, CancelOwn, InvalidateReads, RequestRead, FinishJob, Leave,
         Enqueued, Started, Mutating;
  }

  lemma PoolTurns(h: Hub, e: Event, j: nat)
    requires (e.NewClient? || e.MutationsCleared? || e.Slot? || e.Idle?) && j in h.jobs && JobOk(h.jobs[j])
    ensures j in Step(h, e).jobs && Turns(h, e, j, h.jobs[j], Step(h, e).jobs[j])
  {
    hide Step, Turns, Enqueued, Started, Mutating, JobOk;
    PoolJobs(h, e);
    FlagsTurn(h, j);
  }

  lemma StepTurns(h: Hub, e: Event, j: nat)
    requires Inv(h, h.step) && j in h.jobs
    ensures j in Step(h, e).jobs && Turns(h, e, j, h.jobs[j], Step(h, e).jobs[j])
  {
    hide Step, Turns, Inv;
    InvIsReady(h);
    JobIsWell(h, j);
    if Fencing(e) { FenceTurns(h, e, j); }
    else if e.LeaveRead? { LeaveTurns(h, e, j); }
    else if e.Request? { RequestTurns(h, e, j); }
    else if e.Complete? { CompleteTurns(h, e, j); }
    else { PoolTurns(h, e, j); }
  }

  lemma JobIsWell(h: Hub, j: nat)
    requires Inv(h, h.step) && j in h.jobs
    ensures JobOk(h.jobs[j]) && j < h.step
  {}

  // Over every run a read that somebody waits for and that has not started is in the pool, unless it was asked
  // for, or met its slot, while a write of its checkout was in flight and that wait has not ended: exactly then
  // it waits outside.
  lemma {:induction false} UnstartedReadsAreQueued(events: seq<Event>, j: nat)
    requires j in Run(events).jobs && Live(Run(events).jobs[j]) && !Run(events).jobs[j].started
    ensures Run(events).jobs[j].queued <==> !StillWaits(events, j)
  {
    hide Run, Step, Inv, StillWaits, Deferred, WriteInFlight, Mutating;
    SomethingHappened(events, j);
    var front, last := events[..|events| - 1], events[|events| - 1];
    var h := Run(front);
    assert events[..|front| + 1] == events && events[..|front|] == front;
    RunTurns(events, |front|);
    SharedReadInvariant(front);
    InvIsReady(h);
    WaitsOn(events, j);
    if j in h.jobs {
      StepTurns(h, last, j);
      UnstartedReadsAreQueued(front, j);
      JobIsWell(h, j);
      MutatingIsWriting(front, h.jobs[j].repository);
      LastDefers(events, j);
    } else {
      OnlyRequestsCreate(h, last, j);
      NewReadsAreQueued(events, j);
      NothingWaitedBefore(front, j);
      LastDefers(events, j);
    }
  }

  lemma SomethingHappened(events: seq<Event>, j: nat)
    requires j in Run(events).jobs
    ensures events != []
  {}

  lemma LastDefers(events: seq<Event>, j: nat)
    requires events != [] && j in Run(events).jobs
    ensures var front, last := events[..|events| - 1], events[|events| - 1];
      Deferred(events, |front|, j) <==>
        && WriteInFlight(front, Run(events).jobs[j].repository)
        && ((last.Request? && |front| == j)
            || (last == Slot(j) && j in Run(front).jobs && Run(front).jobs[j].queued))
  {
    hide WriteInFlight, Run;
    var front := events[..|events| - 1];
    assert events[..|front| + 1] == events && events[..|front|] == front;
  }

  lemma NothingWaitedBefore(events: seq<Event>, j: nat)
    requires j == |events|
    ensures !StillWaits(events, j)
  {
    hide WriteInFlight, Run;
    forall k: nat | k < |events| ensures !Deferred(events, k, j) {
      SharedReadInvariant(events[..k + 1]);
      JobsAreOld(Run(events[..k + 1]), k + 1);
    }
  }

  lemma JobsAreOld(h: Hub, n: nat)
    requires Inv(h, n)
    ensures forall j | j in h.jobs :: j < n
  {}

  // ---- Leaving ----

  // A subscriber that leaves is rejected, and alone. Its job goes on for the others as it was; without others
  // it is aborted and shared no more, and is over at once if it had not started.
  lemma DepartureIsItsOwn(h: Hub, s: nat)
    requires Inv(h, h.step) && s in h.subscribers && h.subscribers[s].settled == 0
    ensures var g, j := Step(h, LeaveRead(s)), h.subscribers[s].job;
      && j in h.jobs && s in h.jobs[j].subscribers && g.jobs.Keys == h.jobs.Keys
      && g.subscribers == h.subscribers[s := h.subscribers[s].(settled := 1)]
      && (forall i | i in h.jobs && i != j :: g.jobs[i] == h.jobs[i])
      && (if h.jobs[j].subscribers == {s}
          then var job := h.jobs[j];
               && g.jobs[j] == Job(job.key, job.repository, {}, false, job.started, !job.started, true)
               && g.shared == map k | k in h.shared && h.shared[k] != j :: h.shared[k]
          else g.jobs[j] == h.jobs[j].(subscribers := h.jobs[j].subscribers - {s}) && g.shared == h.shared)
  {
    hide Inv, Step, DepartAll, SettleAll, StillShared, JobOk;
    LeavingStep(h, s);
    OthersHaveOtherSubscribers(h, s);
    JobIsWell(h, h.subscribers[s].job);
    OneDeparts(h.jobs, h.subscribers[s].job, s, h.shared);
    OneSettles(h.subscribers, s);
  }

  lemma OneDeparts(jobs: map<nat, Job>, j: nat, s: nat, shared: map<ShareKey, nat>)
    requires j in jobs && s in jobs[j].subscribers && JobOk(jobs[j])
    requires forall i | i in jobs && i != j :: s !in jobs[i].subscribers
    requires forall k | k in shared :: shared[k] in jobs
    ensures var g := DepartAll(jobs, {s});
      && g.Keys == jobs.Keys && (forall i | i in jobs && i != j :: g[i] == jobs[i])
      && (if jobs[j].subscribers == {s}
          then && g[j] == Job(jobs[j].key, jobs[j].repository, {}, false, jobs[j].started, !jobs[j].started, true)
               && StillShared(shared, jobs, {s}) == map k | k in shared && shared[k] != j :: shared[k]
          else && g[j] == jobs[j].(subscribers := jobs[j].subscribers - {s})
               && StillShared(shared, jobs, {s}) == shared)
  {
    if jobs[j].subscribers != {s} {
      var t :| t in jobs[j].subscribers && t != s;
      assert t in jobs[j].subscribers - {s};
    } else {
      assert jobs[j].subscribers * {s} == {s};
    }
    forall i | i in jobs && i != j ensures Depart(jobs[i], {s}) == jobs[i] && !Abandons(jobs[i], {s}) {
      assert jobs[i].subscribers * {s} == {} && jobs[i].subscribers - {s} == jobs[i].subscribers;
    }
  }

  lemma OneSettles(subscribers: map<nat, Subscriber>, s: nat)
    requires s in subscribers && subscribers[s].settled == 0
    ensures SettleAll(subscribers, {s}) == subscribers[s := subscribers[s].(settled := 1)]
  {}

  lemma LeavingStep(h: Hub, s: nat)
    requires Inv(h, h.step) && s in h.subscribers && h.subscribers[s].settled == 0
    ensures var g := Step(h, LeaveRead(s));
      && g.jobs == DepartAll(h.jobs, {s}) && g.subscribers == SettleAll(h.subscribers, {s})
      && g.shared == StillShared(h.shared, h.jobs, {s})
  {
    hide DepartAll, SettleAll, StillShared, StillRead;
    assert SubscriberOk(s, h.subscribers[s], h.jobs, h.clients.Keys);
  }

  lemma OthersHaveOtherSubscribers(h: Hub, s: nat)
    requires Inv(h, h.step) && s in h.subscribers && h.subscribers[s].settled == 0
    ensures h.subscribers[s].job in h.jobs && s in h.jobs[h.subscribers[s].job].subscribers
    ensures forall k | k in h.shared :: h.shared[k] in h.jobs
    ensures forall i | i in h.jobs && i != h.subscribers[s].job :: s !in h.jobs[i].subscribers
  {
    assert SubscriberOk(s, h.subscribers[s], h.jobs, h.clients.Keys);
  }
}
